/**
 * The extractor's own expected cases (`TEST_CASES` in src/lib/dogInfoExtractor.ts) and a few
 * illustrative messages, evaluated on the model. Only the fields a case lists are checked,
 * as in the source. Each message is evaluated piece by piece: absence of the veto phrases
 * in chunks, then the first breed hit, then the composite result.
 */
module ExtractorCases {
  import opened Wrappers
  import opened Text
  import opened Scan
  import opened Lexicon
  import opened DogInfoExtractor
  import opened ExtractorProperties

  // ---------------------------------------------------------------- evaluation helpers

  /** Entry `k` of `pats` occurs in `t`. */
  lemma Present(t: string, pats: seq<string>, k: nat)
    requires k < |pats| && Contains(t, pats[k])
    ensures ContainsAny(t, pats)
  {
    ContainsAnyIff(t, pats);
  }

  /** Veto phrases 0 to 4 are absent from `t`. */
  lemma NoVeto0(t: string)
    requires '吗' !in t && '怎' !in t && '考' !in t && '纠' !in t && '想' !in t
    ensures forall j | 0 <= j < 5 :: !Contains(t, Negatives[j])
  {
    AbsentChar(t, "好养吗", 2);
    AbsentChar(t, "怎么样", 0);
    AbsentChar(t, "考虑", 0);
    AbsentChar(t, "纠结", 0);
    AbsentChar(t, "想养", 0);
    forall j | 0 <= j < 5 ensures !Contains(t, Negatives[j]) {
      if j == 0 {} else if j == 1 {} else if j == 2 {} else if j == 3 {} else {}
    }
  }

  /** Veto phrases 5 to 9 are absent from `t`. */
  lemma NoVeto1(t: string)
    requires '推' !in t && '合' !in t && '如' !in t && '还' !in t && '或' !in t
    ensures forall j | 5 <= j < 10 :: !Contains(t, Negatives[j])
  {
    AbsentChar(t, "推荐", 0);
    AbsentChar(t, "合适吗", 0);
    AbsentChar(t, "如何", 0);
    AbsentChar(t, "还是", 0);
    AbsentChar(t, "或者", 0);
    forall j | 5 <= j < 10 ensures !Contains(t, Negatives[j]) {
      if j == 5 {} else if j == 6 {} else if j == 7 {} else if j == 8 {} else {}
    }
  }

  /** Veto phrases 10 to 14 are absent from `t`. */
  lemma NoVeto2(t: string)
    requires '哪' !in t && '建' !in t && '不' !in t
    ensures forall j | 10 <= j < 15 :: !Contains(t, Negatives[j])
  {
    AbsentChar(t, "哪个好", 0);
    AbsentChar(t, "选哪个", 1);
    AbsentChar(t, "建议", 0);
    AbsentChar(t, "不是", 0);
    AbsentChar(t, "不买", 0);
    forall j | 10 <= j < 15 ensures !Contains(t, Negatives[j]) {
      if j == 10 {} else if j == 11 {} else if j == 12 {} else if j == 13 {} else {}
    }
  }

  /** Veto phrases 15 to 19 are absent from `t`. */
  lemma NoVeto3(t: string)
    requires '没' !in t && '不' !in t
    ensures forall j | 15 <= j < 20 :: !Contains(t, Negatives[j])
  {
    AbsentChar(t, "没有", 0);
    AbsentChar(t, "不要", 0);
    AbsentChar(t, "不养", 0);
    AbsentChar(t, "不考虑", 0);
    AbsentChar(t, "不打算", 0);
    forall j | 15 <= j < 20 ensures !Contains(t, Negatives[j]) {
      if j == 15 {} else if j == 16 {} else if j == 17 {} else if j == 18 {} else {}
    }
  }

  /** With all four chunks absent, no veto phrase occurs. */
  lemma VetoFree(t: string)
    requires forall j | 0 <= j < 5 :: !Contains(t, Negatives[j])
    requires forall j | 5 <= j < 10 :: !Contains(t, Negatives[j])
    requires forall j | 10 <= j < 15 :: !Contains(t, Negatives[j])
    requires forall j | 15 <= j < 20 :: !Contains(t, Negatives[j])
    ensures !HasNegativePattern(t)
  {
    ContainsAnyIff(t, Negatives);
  }

  /** No all-day word occurs in `t`. */
  lemma NoAllDay(t: string)
    requires '全' !in t && '整' !in t && '一' !in t && '2' !in t
    ensures !ContainsAny(t, AllDayWords)
  {
    AbsentChar(t, "全天", 0);
    AbsentChar(t, "整天", 0);
    AbsentChar(t, "一整天", 0);
    AbsentChar(t, "24小时", 0);
    AbsentChar(t, "24时", 0);
    AbsentChar(t, "一直在家", 0);
    forall j | 0 <= j < |AllDayWords| ensures !Contains(t, AllDayWords[j]) {
      if j == 0 {} else if j == 1 {} else if j == 2 {} else if j == 3 {} else if j == 4 {} else {}
    }
    ContainsAnyIff(t, AllDayWords);
  }

  /** No mostly-home word occurs in `t`. */
  lemma NoMostlyHome(t: string)
    requires '大' !in t && '基' !in t && '经' !in t && '多' !in t
    ensures !ContainsAny(t, MostlyHomeWords)
  {
    AbsentChar(t, "大部分", 0);
    AbsentChar(t, "基本在家", 0);
    AbsentChar(t, "经常在家", 0);
    AbsentChar(t, "多数时间", 0);
    forall j | 0 <= j < |MostlyHomeWords| ensures !Contains(t, MostlyHomeWords[j]) {
      if j == 0 {} else if j == 1 {} else if j == 2 {} else {}
    }
    ContainsAnyIff(t, MostlyHomeWords);
  }

  /** No office-worker word occurs in `t`. */
  lemma NoOfficeWorker(t: string)
    requires '上' !in t && '朝' !in t && '白' !in t && '工' !in t
    ensures !ContainsAny(t, OfficeWorkerWords)
  {
    AbsentChar(t, "上班族", 0);
    AbsentChar(t, "朝九晚五", 0);
    AbsentChar(t, "白天上班", 0);
    AbsentChar(t, "工作日上班", 0);
    forall j | 0 <= j < |OfficeWorkerWords| ensures !Contains(t, OfficeWorkerWords[j]) {
      if j == 0 {} else if j == 1 {} else if j == 2 {} else {}
    }
    ContainsAnyIff(t, OfficeWorkerWords);
  }

  /** An entry that occurs stops the first-hit search. */
  lemma FirstHit(t: string, pats: seq<string>, k: nat)
    requires k < |pats| && Contains(t, pats[k])
    ensures FirstContained(t, pats, k) == Some(k)
  {
  }

  /** A one-digit number followed by a non-digit. */
  lemma OneDigit(text: string, a: nat)
    requires a + 1 < |text| && IsDigit(text[a]) && !IsDigit(text[a + 1])
    ensures DigitRun(text, a) == [text[a]] && DecimalValue(DigitRun(text, a)) == DigitValue(text[a])
  {
    assert Span(text, a, Digit) == 1 by { assert Span(text, a + 1, Digit) == 0; }
    assert [text[a]][..0] == [];
  }

  /** The shared hour tail reads 'd小时' as `d` hours. */
  lemma SingleHours(text: string, a: nat)
    requires a + 3 <= |text| && IsDigit(text[a]) && text[a + 1] == '小' && text[a + 2] == '时'
    ensures HoursTailAt(text, a) == Some(HourCapture(DigitValue(text[a]), None))
  {
    assert Span(text, a, Space) == 0;
    OneDigit(text, a);
    assert Span(text, a + 1, Space) == 0;
    assert Span(text, a + 1, Digit) == 0;
  }

  /** Breeds 0 to 2 are absent from `t`. */
  lemma NoBreedsA(t: string)
    requires '金' !in t && '拉' !in t
    ensures forall j | 0 <= j < 3 :: !Contains(t, DogBreeds[j])
  {
    AbsentChar(t, "金毛", 0);
    AbsentChar(t, "拉布拉多", 0);
    AbsentChar(t, "拉拉", 0);
    forall j | 0 <= j < 3 ensures !Contains(t, DogBreeds[j]) {
      if j == 0 {} else if j == 1 {} else {}
    }
  }

  /** The first listed breed is absent from `t`. */
  lemma NoGolden(t: string)
    requires '金' !in t
    ensures !Contains(t, DogBreeds[0])
  {
    AbsentChar(t, "金毛", 0);
  }

  /** Breeds 3 to 7 are absent from `t`. */
  lemma NoBreedsB(t: string)
    requires '哈' !in t && '萨' !in t && '阿' !in t && '德' !in t
    ensures forall j | 3 <= j < 8 :: !Contains(t, DogBreeds[j])
  {
    AbsentChar(t, "哈士奇", 0);
    AbsentChar(t, "萨摩耶", 0);
    AbsentChar(t, "萨摩", 0);
    AbsentChar(t, "阿拉斯加", 0);
    AbsentChar(t, "德牧", 0);
    forall j | 3 <= j < 8 ensures !Contains(t, DogBreeds[j]) {
      if j == 3 {} else if j == 4 {} else if j == 5 {} else if j == 6 {} else {}
    }
  }

  /** Breeds 8 to 13 are absent from `t`. */
  lemma NoBreedsC(t: string)
    requires '德' !in t && '边' !in t && '秋' !in t && '柴' !in t && '松' !in t
    ensures forall j | 8 <= j < 14 :: !Contains(t, DogBreeds[j])
  {
    AbsentChar(t, "德国牧羊犬", 0);
    AbsentChar(t, "边牧", 0);
    AbsentChar(t, "边境牧羊犬", 0);
    AbsentChar(t, "秋田", 0);
    AbsentChar(t, "柴犬", 0);
    AbsentChar(t, "松狮", 0);
    forall j | 8 <= j < 14 ensures !Contains(t, DogBreeds[j]) {
      if j == 8 {} else if j == 9 {} else if j == 10 {} else if j == 11 {} else if j == 12 {} else {}
    }
  }

  /** Breeds 14 to 18 are absent from `t`. */
  lemma NoBreedsD(t: string)
    requires '柯' !in t && '比' !in t && '雪' !in t && '法' !in t
    ensures forall j | 14 <= j < 19 :: !Contains(t, DogBreeds[j])
  {
    AbsentChar(t, "柯基", 0);
    AbsentChar(t, "比格", 0);
    AbsentChar(t, "雪纳瑞", 0);
    AbsentChar(t, "法斗", 0);
    AbsentChar(t, "法国斗牛犬", 0);
    forall j | 14 <= j < 19 ensures !Contains(t, DogBreeds[j]) {
      if j == 14 {} else if j == 15 {} else if j == 16 {} else if j == 17 {} else {}
    }
  }

  /** Breeds 19 to 23 are absent from `t`. */
  lemma NoBreedsE(t: string)
    requires '英' !in t && '可' !in t && '巴' !in t && '沙' !in t
    ensures forall j | 19 <= j < 24 :: !Contains(t, DogBreeds[j])
  {
    AbsentChar(t, "英斗", 0);
    AbsentChar(t, "英国斗牛犬", 0);
    AbsentChar(t, "可卡", 0);
    AbsentChar(t, "巴哥", 0);
    AbsentChar(t, "沙皮", 0);
    forall j | 19 <= j < 24 ensures !Contains(t, DogBreeds[j]) {
      if j == 19 {} else if j == 20 {} else if j == 21 {} else if j == 22 {} else {}
    }
  }

  /** Past the gates, a listed breed that occurs with none listed before it is the breed. */
  lemma BreedFromFirstHit(t: string, k: nat)
    requires !HasNegativePattern(t) && HasTriggerVerb(t)
    requires k < |DogBreeds| && Contains(t, DogBreeds[k])
    requires forall j :: 0 <= j < k ==> !Contains(t, DogBreeds[j])
    ensures ExtractBreed(t) == Some(DogBreeds[k])
  {
    FirstContainedAt(t, DogBreeds, k);
  }

  /** The list positions of the breeds the cases name. */
  lemma BreedPositions()
    ensures DogBreeds[1] == "拉布拉多" && DogBreeds[3] == "哈士奇"
    ensures DogBreeds[14] == "柯基" && DogBreeds[24] == "泰迪"
  {
  }

  /** Chunks A to C together: no breed listed before index 14 occurs. */
  lemma NoBreedsBelow14(t: string)
    requires forall j | 0 <= j < 3 :: !Contains(t, DogBreeds[j])
    requires forall j | 3 <= j < 8 :: !Contains(t, DogBreeds[j])
    requires forall j | 8 <= j < 14 :: !Contains(t, DogBreeds[j])
    ensures forall j :: 0 <= j < 14 ==> !Contains(t, DogBreeds[j])
  {
  }

  /** Chunks A to E together: no breed listed before index 24 occurs. */
  lemma NoBreedsBelow24(t: string)
    requires forall j :: 0 <= j < 14 ==> !Contains(t, DogBreeds[j])
    requires forall j | 14 <= j < 19 :: !Contains(t, DogBreeds[j])
    requires forall j | 19 <= j < 24 :: !Contains(t, DogBreeds[j])
    ensures forall j :: 0 <= j < 24 ==> !Contains(t, DogBreeds[j])
  {
  }

  /** No juvenile word occurs in `t`. */
  lemma NoJuvenileWords(t: string)
    requires '幼' !in t && '小' !in t && '刚' !in t
    ensures !Mentions(t, JuvenileWords)
  {
    AbsentChar(t, "幼犬", 0);
    AbsentChar(t, "幼年", 0);
    AbsentChar(t, "小狗", 0);
    AbsentChar(t, "刚出生", 0);
    forall j | 0 <= j < |JuvenileWords| ensures !Contains(t, JuvenileWords[j]) {
      if j == 0 {} else if j == 1 {} else if j == 2 {} else {}
    }
    ContainsAnyIff(t, JuvenileWords);
    ContainsAnyMentions(t, JuvenileWords);
  }

  /** No adult word occurs in `t`. */
  lemma NoAdultWords(t: string)
    requires '成' !in t && '狗' !in t
    ensures !Mentions(t, AdultWords)
  {
    AbsentChar(t, "成犬", 0);
    AbsentChar(t, "成年", 0);
    AbsentChar(t, "大狗", 1);
    forall j | 0 <= j < |AdultWords| ensures !Contains(t, AdultWords[j]) {
      if j == 0 {} else if j == 1 {} else {}
    }
    ContainsAnyIff(t, AdultWords);
    ContainsAnyMentions(t, AdultWords);
  }

  /** The veto is absent and a trigger verb present, in occurrence terms. */
  lemma AgeGates(t: string)
    requires !HasNegativePattern(t) && HasTriggerVerb(t)
    ensures !Mentions(t, Negatives) && Mentions(t, Triggers)
  {
    ContainsAnyMentions(t, Negatives);
    ContainsAnyMentions(t, Triggers);
  }

  /** The first month pattern needs a digit where it starts. */
  lemma MonthsNeedDigit(text: string, k: nat)
    requires k >= |text| || !IsDigit(text[k])
    ensures MonthsCountAt(text, k).None?
  {
    if k <= |text| {
      assert Span(text, k, Digit) == 0;
    }
  }

  /** The first month pattern reads 'd个月' as `d` months. */
  lemma SingleMonths(text: string, a: nat)
    requires a + 3 <= |text| && IsDigit(text[a]) && text[a + 1] == '个' && text[a + 2] == '月'
    ensures MonthsCountAt(text, a) == Some(DigitValue(text[a]))
  {
    OneDigit(text, a);
    assert Span(text, a + 1, Space) == 0;
  }

  /** The breed field, once its gates and its first listed hit are known. */
  lemma BreedIs(t: string, k: nat)
    requires !HasNegativePattern(t) && HasTriggerVerb(t)
    requires FirstContained(t, DogBreeds, 0) == Some(k)
    ensures ExtractBreed(t) == Some(DogBreeds[k])
  {
  }

  /** A vetoed message yields nothing at all. */
  lemma Vetoed(t: string)
    requires HasNegativePattern(t)
    ensures Extract(t) == ExtractedDogInfo(None, None, None)
  {
  }

  // ---------------------------------------------------------------- '我买了只金毛'

  lemma GoldenVeto0() ensures forall j | 0 <= j < 5 :: !Contains("我买了只金毛", Negatives[j]) { NoVeto0("我买了只金毛"); }
  lemma GoldenVeto1() ensures forall j | 5 <= j < 10 :: !Contains("我买了只金毛", Negatives[j]) { NoVeto1("我买了只金毛"); }
  lemma GoldenVeto2() ensures forall j | 10 <= j < 15 :: !Contains("我买了只金毛", Negatives[j]) { NoVeto2("我买了只金毛"); }
  lemma GoldenVeto3() ensures forall j | 15 <= j < 20 :: !Contains("我买了只金毛", Negatives[j]) { NoVeto3("我买了只金毛"); }
  lemma GoldenFirst() ensures FirstContained("我买了只金毛", DogBreeds, 0) == Some(0) { FirstHit("我买了只金毛", DogBreeds, 0); }

  /** '我买了只金毛' yields the breed '金毛'. */
  lemma BoughtGolden(t: string)
    requires t == "我买了只金毛"
    ensures ExtractBreed(t) == Some("金毛")
  {
    GoldenVeto0(); GoldenVeto1(); GoldenVeto2(); GoldenVeto3();
    VetoFree(t);
    Present(t, Triggers, 1);
    GoldenFirst();
    BreedIs(t, 0);
  }

  // ---------------------------------------------------------------- '确定买金毛了'

  lemma SureVeto0() ensures forall j | 0 <= j < 5 :: !Contains("确定买金毛了", Negatives[j]) { NoVeto0("确定买金毛了"); }
  lemma SureVeto1() ensures forall j | 5 <= j < 10 :: !Contains("确定买金毛了", Negatives[j]) { NoVeto1("确定买金毛了"); }
  lemma SureVeto2() ensures forall j | 10 <= j < 15 :: !Contains("确定买金毛了", Negatives[j]) { NoVeto2("确定买金毛了"); }
  lemma SureVeto3() ensures forall j | 15 <= j < 20 :: !Contains("确定买金毛了", Negatives[j]) { NoVeto3("确定买金毛了"); }
  lemma SureFirst() ensures FirstContained("确定买金毛了", DogBreeds, 0) == Some(0) { FirstHit("确定买金毛了", DogBreeds, 0); }

  /** '确定买金毛了' yields the breed '金毛'. */
  lemma SureToBuyGolden(t: string)
    requires t == "确定买金毛了"
    ensures ExtractBreed(t) == Some("金毛")
  {
    SureVeto0(); SureVeto1(); SureVeto2(); SureVeto3();
    VetoFree(t);
    Present(t, Triggers, 12);
    SureFirst();
    BreedIs(t, 0);
  }

  // ---------------------------------------------------------------- '养了泰迪和金毛'

  lemma PairVeto0() ensures forall j | 0 <= j < 5 :: !Contains("养了泰迪和金毛", Negatives[j]) { NoVeto0("养了泰迪和金毛"); }
  lemma PairVeto1() ensures forall j | 5 <= j < 10 :: !Contains("养了泰迪和金毛", Negatives[j]) { NoVeto1("养了泰迪和金毛"); }
  lemma PairVeto2() ensures forall j | 10 <= j < 15 :: !Contains("养了泰迪和金毛", Negatives[j]) { NoVeto2("养了泰迪和金毛"); }
  lemma PairVeto3() ensures forall j | 15 <= j < 20 :: !Contains("养了泰迪和金毛", Negatives[j]) { NoVeto3("养了泰迪和金毛"); }
  lemma PairFirst() ensures FirstContained("养了泰迪和金毛", DogBreeds, 0) == Some(0) { FirstHit("养了泰迪和金毛", DogBreeds, 0); }

  /** '养了泰迪和金毛' names the poodle first, but '金毛' is listed first among the breeds, so it wins. */
  lemma ListOrderBeatsTextOrder(t: string)
    requires t == "养了泰迪和金毛"
    ensures ExtractBreed(t) == Some("金毛")
  {
    PairVeto0(); PairVeto1(); PairVeto2(); PairVeto3();
    VetoFree(t);
    Present(t, Triggers, 6);
    PairFirst();
    BreedIs(t, 0);
  }

  // ---------------------------------------------------------------- '定了一只3个月的拉布拉多'

  lemma LabVeto0() ensures forall j | 0 <= j < 5 :: !Contains("定了一只3个月的拉布拉多", Negatives[j]) { NoVeto0("定了一只3个月的拉布拉多"); }
  lemma LabVeto1() ensures forall j | 5 <= j < 10 :: !Contains("定了一只3个月的拉布拉多", Negatives[j]) { NoVeto1("定了一只3个月的拉布拉多"); }
  lemma LabVeto2() ensures forall j | 10 <= j < 15 :: !Contains("定了一只3个月的拉布拉多", Negatives[j]) { NoVeto2("定了一只3个月的拉布拉多"); }
  lemma LabVeto3() ensures forall j | 15 <= j < 20 :: !Contains("定了一只3个月的拉布拉多", Negatives[j]) { NoVeto3("定了一只3个月的拉布拉多"); }
  lemma LabNoGolden() ensures !Contains("定了一只3个月的拉布拉多", DogBreeds[0]) { NoGolden("定了一只3个月的拉布拉多"); }
  lemma LabBreedHit() ensures Contains("定了一只3个月的拉布拉多", DogBreeds[1]) { ContainsAt("定了一只3个月的拉布拉多", 8, "拉布拉多"); }
  lemma LabNoJuvenile() ensures !Mentions("定了一只3个月的拉布拉多", JuvenileWords) { NoJuvenileWords("定了一只3个月的拉布拉多"); }
  lemma LabNoAdult() ensures !Mentions("定了一只3个月的拉布拉多", AdultWords) { NoAdultWords("定了一只3个月的拉布拉多"); }

  lemma LabGates(t: string)
    requires t == "定了一只3个月的拉布拉多"
    ensures !HasNegativePattern(t) && HasTriggerVerb(t)
  {
    LabVeto0(); LabVeto1(); LabVeto2(); LabVeto3();
    VetoFree(t);
    Present(t, Triggers, 0);
  }

  /** '3个月' at index 4 is the first month count: no digit comes before it. */
  lemma LabMonths(t: string)
    requires t == "定了一只3个月的拉布拉多"
    ensures MonthsCountAt(t, 4) == Some(3)
    ensures forall k :: 0 <= k < 4 ==> MonthsCountAt(t, k).None?
  {
    SingleMonths(t, 4);
    forall k | 0 <= k < 4 ensures MonthsCountAt(t, k).None? {
      assert !IsDigit(t[k]) by { if k == 0 {} else if k == 1 {} else if k == 2 {} else {} }
      MonthsNeedDigit(t, k);
    }
  }

  lemma LabBreed(t: string)
    requires t == "定了一只3个月的拉布拉多"
    ensures ExtractBreed(t) == Some("拉布拉多")
  {
    LabGates(t);
    LabNoGolden();
    LabBreedHit();
    BreedFromFirstHit(t, 1);
    BreedPositions();
  }

  lemma LabAge(t: string)
    requires t == "定了一只3个月的拉布拉多"
    ensures ExtractAgeMonths(t) == Some(Months1To3)
  {
    LabGates(t);
    AgeGates(t);
    LabNoJuvenile();
    LabNoAdult();
    LabMonths(t);
    MonthsDecide(t, 4);
  }

  /** '定了一只3个月的拉布拉多' yields the breed '拉布拉多' and the age bucket '1-3'. */
  lemma ThreeMonthLabrador(t: string)
    requires t == "定了一只3个月的拉布拉多"
    ensures ExtractBreed(t) == Some("拉布拉多")
    ensures ExtractAgeMonths(t) == Some(Months1To3)
  {
    LabBreed(t);
    LabAge(t);
  }

  // ---------------------------------------------------------------- '领养了只泰迪，5个月大'

  lemma TeddyVeto0() ensures forall j | 0 <= j < 5 :: !Contains("领养了只泰迪，5个月大", Negatives[j]) { NoVeto0("领养了只泰迪，5个月大"); }
  lemma TeddyVeto1() ensures forall j | 5 <= j < 10 :: !Contains("领养了只泰迪，5个月大", Negatives[j]) { NoVeto1("领养了只泰迪，5个月大"); }
  lemma TeddyVeto2() ensures forall j | 10 <= j < 15 :: !Contains("领养了只泰迪，5个月大", Negatives[j]) { NoVeto2("领养了只泰迪，5个月大"); }
  lemma TeddyVeto3() ensures forall j | 15 <= j < 20 :: !Contains("领养了只泰迪，5个月大", Negatives[j]) { NoVeto3("领养了只泰迪，5个月大"); }
  lemma TeddyBreedsA() ensures forall j | 0 <= j < 3 :: !Contains("领养了只泰迪，5个月大", DogBreeds[j]) { NoBreedsA("领养了只泰迪，5个月大"); }
  lemma TeddyBreedsB() ensures forall j | 3 <= j < 8 :: !Contains("领养了只泰迪，5个月大", DogBreeds[j]) { NoBreedsB("领养了只泰迪，5个月大"); }
  lemma TeddyBreedsC() ensures forall j | 8 <= j < 14 :: !Contains("领养了只泰迪，5个月大", DogBreeds[j]) { NoBreedsC("领养了只泰迪，5个月大"); }
  lemma TeddyBreedsD() ensures forall j | 14 <= j < 19 :: !Contains("领养了只泰迪，5个月大", DogBreeds[j]) { NoBreedsD("领养了只泰迪，5个月大"); }
  lemma TeddyBreedsE() ensures forall j | 19 <= j < 24 :: !Contains("领养了只泰迪，5个月大", DogBreeds[j]) { NoBreedsE("领养了只泰迪，5个月大"); }
  lemma TeddyBreedHit() ensures Contains("领养了只泰迪，5个月大", DogBreeds[24]) { ContainsAt("领养了只泰迪，5个月大", 4, "泰迪"); }
  lemma TeddyNoJuvenile() ensures !Mentions("领养了只泰迪，5个月大", JuvenileWords) { NoJuvenileWords("领养了只泰迪，5个月大"); }
  lemma TeddyNoAdult() ensures !Mentions("领养了只泰迪，5个月大", AdultWords) { NoAdultWords("领养了只泰迪，5个月大"); }

  lemma TeddyGates(t: string)
    requires t == "领养了只泰迪，5个月大"
    ensures !HasNegativePattern(t) && HasTriggerVerb(t)
  {
    TeddyVeto0(); TeddyVeto1(); TeddyVeto2(); TeddyVeto3();
    VetoFree(t);
    Present(t, Triggers, 3);
  }

  /** '5个月大' at index 7 is the first month count: no digit comes before it. */
  lemma TeddyMonths(t: string)
    requires t == "领养了只泰迪，5个月大"
    ensures MonthsCountAt(t, 7) == Some(5)
    ensures forall k :: 0 <= k < 7 ==> MonthsCountAt(t, k).None?
  {
    SingleMonths(t, 7);
    forall k | 0 <= k < 7 ensures MonthsCountAt(t, k).None? {
      assert !IsDigit(t[k]) by {
        if k == 0 {} else if k == 1 {} else if k == 2 {} else if k == 3 {} else if k == 4 {} else if k == 5 {} else {}
      }
      MonthsNeedDigit(t, k);
    }
  }

  lemma TeddyBreed(t: string)
    requires t == "领养了只泰迪，5个月大"
    ensures ExtractBreed(t) == Some("泰迪")
  {
    TeddyGates(t);
    TeddyBreedsA(); TeddyBreedsB(); TeddyBreedsC();
    NoBreedsBelow14(t);
    TeddyBreedsD(); TeddyBreedsE();
    NoBreedsBelow24(t);
    TeddyBreedHit();
    BreedFromFirstHit(t, 24);
    BreedPositions();
  }

  lemma TeddyAge(t: string)
    requires t == "领养了只泰迪，5个月大"
    ensures ExtractAgeMonths(t) == Some(Months4To6)
  {
    TeddyGates(t);
    AgeGates(t);
    TeddyNoJuvenile();
    TeddyNoAdult();
    TeddyMonths(t);
    MonthsDecide(t, 7);
  }

  /** '领养了只泰迪，5个月大' yields the breed '泰迪' and the age bucket '4-6'. */
  lemma FiveMonthTeddy(t: string)
    requires t == "领养了只泰迪，5个月大"
    ensures ExtractBreed(t) == Some("泰迪")
    ensures ExtractAgeMonths(t) == Some(Months4To6)
  {
    TeddyBreed(t);
    TeddyAge(t);
  }

  // ---------------------------------------------------------------- '选好了，就是柯基'

  lemma CorgiVeto0() ensures forall j | 0 <= j < 5 :: !Contains("选好了，就是柯基", Negatives[j]) { NoVeto0("选好了，就是柯基"); }
  lemma CorgiVeto1() ensures forall j | 5 <= j < 10 :: !Contains("选好了，就是柯基", Negatives[j]) { NoVeto1("选好了，就是柯基"); }
  lemma CorgiVeto2() ensures forall j | 10 <= j < 15 :: !Contains("选好了，就是柯基", Negatives[j]) { NoVeto2("选好了，就是柯基"); }
  lemma CorgiVeto3() ensures forall j | 15 <= j < 20 :: !Contains("选好了，就是柯基", Negatives[j]) { NoVeto3("选好了，就是柯基"); }
  lemma CorgiBreedsA() ensures forall j | 0 <= j < 3 :: !Contains("选好了，就是柯基", DogBreeds[j]) { NoBreedsA("选好了，就是柯基"); }
  lemma CorgiBreedsB() ensures forall j | 3 <= j < 8 :: !Contains("选好了，就是柯基", DogBreeds[j]) { NoBreedsB("选好了，就是柯基"); }
  lemma CorgiBreedsC() ensures forall j | 8 <= j < 14 :: !Contains("选好了，就是柯基", DogBreeds[j]) { NoBreedsC("选好了，就是柯基"); }
  lemma CorgiBreedHit() ensures Contains("选好了，就是柯基", DogBreeds[14]) { ContainsAt("选好了，就是柯基", 6, "柯基"); }

  /** '选好了，就是柯基' yields the breed '柯基'. */
  lemma ChoseCorgi(t: string)
    requires t == "选好了，就是柯基"
    ensures ExtractBreed(t) == Some("柯基")
  {
    CorgiVeto0(); CorgiVeto1(); CorgiVeto2(); CorgiVeto3();
    VetoFree(t);
    Present(t, Triggers, 13);
    CorgiBreedsA(); CorgiBreedsB(); CorgiBreedsC();
    NoBreedsBelow14(t);
    CorgiBreedHit();
    BreedFromFirstHit(t, 14);
    BreedPositions();
  }

  // ---------------------------------------------------------------- '家里养了只哈士奇'

  lemma HuskyVeto0() ensures forall j | 0 <= j < 5 :: !Contains("家里养了只哈士奇", Negatives[j]) { NoVeto0("家里养了只哈士奇"); }
  lemma HuskyVeto1() ensures forall j | 5 <= j < 10 :: !Contains("家里养了只哈士奇", Negatives[j]) { NoVeto1("家里养了只哈士奇"); }
  lemma HuskyVeto2() ensures forall j | 10 <= j < 15 :: !Contains("家里养了只哈士奇", Negatives[j]) { NoVeto2("家里养了只哈士奇"); }
  lemma HuskyVeto3() ensures forall j | 15 <= j < 20 :: !Contains("家里养了只哈士奇", Negatives[j]) { NoVeto3("家里养了只哈士奇"); }
  lemma HuskyBreedsA() ensures forall j | 0 <= j < 3 :: !Contains("家里养了只哈士奇", DogBreeds[j]) { NoBreedsA("家里养了只哈士奇"); }
  lemma HuskyBreedHit() ensures Contains("家里养了只哈士奇", DogBreeds[3]) { ContainsAt("家里养了只哈士奇", 5, "哈士奇"); }

  /** '家里养了只哈士奇' yields the breed '哈士奇'. */
  lemma KeepsHusky(t: string)
    requires t == "家里养了只哈士奇"
    ensures ExtractBreed(t) == Some("哈士奇")
  {
    HuskyVeto0(); HuskyVeto1(); HuskyVeto2(); HuskyVeto3();
    VetoFree(t);
    Present(t, Triggers, 6);
    HuskyBreedsA();
    HuskyBreedHit();
    BreedFromFirstHit(t, 3);
    BreedPositions();
  }

  // ---------------------------------------------------------------- '上班族，陪伴时间少'

  lemma OfficeVeto0() ensures forall j | 0 <= j < 5 :: !Contains("上班族，陪伴时间少", Negatives[j]) { NoVeto0("上班族，陪伴时间少"); }
  lemma OfficeVeto1() ensures forall j | 5 <= j < 10 :: !Contains("上班族，陪伴时间少", Negatives[j]) { NoVeto1("上班族，陪伴时间少"); }
  lemma OfficeVeto2() ensures forall j | 10 <= j < 15 :: !Contains("上班族，陪伴时间少", Negatives[j]) { NoVeto2("上班族，陪伴时间少"); }
  lemma OfficeContext() ensures HasCompanionContext("上班族，陪伴时间少") { Present("上班族，陪伴时间少", CompanionContext, 5); }
  lemma OfficeNotAllDay() ensures !ContainsAny("上班族，陪伴时间少", AllDayWords) { NoAllDay("上班族，陪伴时间少"); }
  lemma OfficeNotMostlyHome() ensures !ContainsAny("上班族，陪伴时间少", MostlyHomeWords) { NoMostlyHome("上班族，陪伴时间少"); }
  lemma OfficeWord() ensures ContainsAny("上班族，陪伴时间少", OfficeWorkerWords) { Present("上班族，陪伴时间少", OfficeWorkerWords, 0); }
  lemma OfficeVeto3() ensures forall j | 15 <= j < 20 :: !Contains("上班族，陪伴时间少", Negatives[j]) { NoVeto3("上班族，陪伴时间少"); }

  /** '上班族，陪伴时间少' yields '≤1h' from the office-worker word alone. */
  lemma OfficeWorker(t: string)
    requires t == "上班族，陪伴时间少"
    ensures ExtractCompanionHours(t) == Some(AtMost1h)
  {
    OfficeVeto0(); OfficeVeto1(); OfficeVeto2(); OfficeVeto3();
    VetoFree(t);
    OfficeContext();
    OfficeNotAllDay();
    OfficeNotMostlyHome();
    OfficeWord();
  }

  // ---------------------------------------------------------------- '我每天能陪8小时'

  /**
   * '能陪8小时' reads as eight hours with no second number, and a lone eight lands in '4-8h',
   * the bucket whose upper bound is inclusive. The case list beside the extractor expects
   * '≥8h' for '我每天能陪8小时'.
   */
  lemma EightVeto0() ensures forall j | 0 <= j < 5 :: !Contains("我每天能陪8小时", Negatives[j]) { NoVeto0("我每天能陪8小时"); }
  lemma EightVeto1() ensures forall j | 5 <= j < 10 :: !Contains("我每天能陪8小时", Negatives[j]) { NoVeto1("我每天能陪8小时"); }
  lemma EightVeto2() ensures forall j | 10 <= j < 15 :: !Contains("我每天能陪8小时", Negatives[j]) { NoVeto2("我每天能陪8小时"); }
  lemma EightVeto3() ensures forall j | 15 <= j < 20 :: !Contains("我每天能陪8小时", Negatives[j]) { NoVeto3("我每天能陪8小时"); }
  lemma EightContext() ensures HasCompanionContext("我每天能陪8小时") { Present("我每天能陪8小时", CompanionContext, 0); }
  lemma EightNotAllDay() ensures !ContainsAny("我每天能陪8小时", AllDayWords) { NoAllDay("我每天能陪8小时"); }
  lemma EightNotMostlyHome() ensures !ContainsAny("我每天能陪8小时", MostlyHomeWords) { NoMostlyHome("我每天能陪8小时"); }
  lemma EightNotOffice() ensures !ContainsAny("我每天能陪8小时", OfficeWorkerWords) { NoOfficeWorker("我每天能陪8小时"); }

  /** The every-day pattern needs '每' or '一' where it starts. */
  lemma EveryDayNeedsMarker(text: string, k: nat)
    requires k >= |text| || (text[k] != '每' && text[k] != '一')
    ensures EveryDayHoursAt(text, k).None?
  {
  }

  /** The can-accompany pattern needs '能' where it starts. */
  lemma CanAccompanyNeedsMarker(text: string, k: nat)
    requires k >= |text| || text[k] != '能'
    ensures CanAccompanyHoursAt(text, k).None?
  {
  }

  /** '每天' is followed by '能', not a number, so the every-day hour pattern matches nowhere. */
  lemma EightNoEveryDay(t: string)
    requires t == "我每天能陪8小时"
    ensures forall k :: 0 <= k <= |t| ==> EveryDayHoursAt(t, k).None?
  {
    forall k | 0 <= k <= |t| ensures EveryDayHoursAt(t, k).None? {
      if k == 1 {
        EightEveryDayAtOne(t);
      } else {
        EightNotEveryDayMarker(t, k);
        EveryDayNeedsMarker(t, k);
      }
    }
  }

  lemma EightNotEveryDayMarker(t: string, k: nat)
    requires t == "我每天能陪8小时" && k != 1
    ensures k >= |t| || (t[k] != '每' && t[k] != '一')
  {
    if k == 0 {} else if k == 2 {} else if k == 3 {} else if k == 4 {}
    else if k == 5 {} else if k == 6 {} else if k == 7 {} else {}
  }

  /** At '每天' the tail needs a number, but '能' follows. */
  lemma EightEveryDayAtOne(t: string)
    requires t == "我每天能陪8小时"
    ensures EveryDayHoursAt(t, 1).None?
  {
    assert Span(t, 2, Space) == 0;
    assert t[2] == '天';
    assert Span(t, 3, Space) == 0;
    assert Span(t, 3, Digit) == 0;
  }

  /** At '能陪' the tail reads '8小时' as eight hours. */
  lemma EightCanAccompanyAtThree(t: string)
    requires t == "我每天能陪8小时"
    ensures CanAccompanyHoursAt(t, 3) == Some(HourCapture(8, None))
  {
    assert MatchFrom(t, 3, "能陪", 0);
    SingleHours(t, 5);
  }

  /** No '能' before index 3, so the can-accompany pattern does not match there. */
  lemma EightNoCanAccompanyBefore(t: string)
    requires t == "我每天能陪8小时"
    ensures forall k :: 0 <= k < 3 ==> CanAccompanyHoursAt(t, k).None?
  {
    forall k | 0 <= k < 3 ensures CanAccompanyHoursAt(t, k).None? {
      assert t[k] != '能' by { if k == 0 {} else if k == 1 {} else {} }
      CanAccompanyNeedsMarker(t, k);
    }
  }

  /** The five lists the hour patterns wait on are settled for '我每天能陪8小时'. */
  lemma EightHoursGates(t: string)
    requires t == "我每天能陪8小时"
    ensures HoursPatternsDecide(t)
  {
    EightVeto0(); EightVeto1(); EightVeto2(); EightVeto3();
    VetoFree(t);
    EightContext();
    EightNotAllDay();
    EightNotMostlyHome();
    EightNotOffice();
    ContainsAnyMentions(t, Negatives);
    ContainsAnyMentions(t, CompanionContext);
    ContainsAnyMentions(t, AllDayWords);
    ContainsAnyMentions(t, MostlyHomeWords);
    ContainsAnyMentions(t, OfficeWorkerWords);
  }

  /**
   * '我每天能陪8小时', run through the whole companion-hours extractor: eight hours with no
   * second number lands in '4-8h', the bucket whose upper bound is inclusive. The case list
   * beside the extractor expects '≥8h' for this message.
   */
  lemma CanAccompanyEightHours(t: string)
    requires t == "我每天能陪8小时"
    ensures ExtractCompanionHours(t) == Some(Hours4To8)
    ensures ExtractCompanionHours(t) != Some(AtLeast8h)
  {
    EightHoursGates(t);
    EightNoEveryDay(t);
    EightNoCanAccompanyBefore(t);
    EightCanAccompanyAtThree(t);
    CanAccompanyHoursDecide(t, 3);
  }

  // ---------------------------------------------------------------- shouldNotExtract

  /** '金毛好养吗？' carries a veto phrase, so all three fields are absent. */
  lemma AskingIfEasy()
    ensures Extract("金毛好养吗？") == ExtractedDogInfo(None, None, None)
  {
    Present("金毛好养吗？", Negatives, 0);
    Vetoed("金毛好养吗？");
  }

  /** '我在考虑养金毛' carries a veto phrase, so all three fields are absent. */
  lemma StillConsidering()
    ensures Extract("我在考虑养金毛") == ExtractedDogInfo(None, None, None)
  {
    Present("我在考虑养金毛", Negatives, 2);
    Vetoed("我在考虑养金毛");
  }

  /** '金毛和泰迪选哪个？' carries a veto phrase, so all three fields are absent. */
  lemma ChoosingBetween()
    ensures Extract("金毛和泰迪选哪个？") == ExtractedDogInfo(None, None, None)
  {
    Present("金毛和泰迪选哪个？", Negatives, 11);
    Vetoed("金毛和泰迪选哪个？");
  }

  /** '我想养只狗' carries a veto phrase, so all three fields are absent. */
  lemma WantingADog()
    ensures Extract("我想养只狗") == ExtractedDogInfo(None, None, None)
  {
    Present("我想养只狗", Negatives, 4);
    Vetoed("我想养只狗");
  }

  /** '推荐一个犬种' carries a veto phrase, so all three fields are absent. */
  lemma AskingForAdvice()
    ensures Extract("推荐一个犬种") == ExtractedDogInfo(None, None, None)
  {
    Present("推荐一个犬种", Negatives, 5);
    Vetoed("推荐一个犬种");
  }

  /** '不养金毛' carries a veto phrase, so all three fields are absent. */
  lemma NotKeeping()
    ensures Extract("不养金毛") == ExtractedDogInfo(None, None, None)
  {
    Present("不养金毛", Negatives, 17);
    Vetoed("不养金毛");
  }

  /** '我没有狗' carries a veto phrase, so all three fields are absent. */
  lemma HasNoDog()
    ensures Extract("我没有狗") == ExtractedDogInfo(None, None, None)
  {
    Present("我没有狗", Negatives, 15);
    Vetoed("我没有狗");
  }
}
