/**
 * The planner on the demo's reference data: the parsed prices and allowances of
 * the plan list, the plan each intent selects with the current price 69,000,
 * and whole requests, including the ones whose wording the first-match intent
 * table reads as "cheapest" because their keyword contains "싼".
 */
module PlannerExamples {
  import opened Text
  import opened Rules
  import opened CrmData
  import opened Pricing
  import opened Selection
  import opened ActionPlanner

  /** The prices of `PLAN_DATA.available`, in list order. */
  const DemoPrices: seq<int> := [79000, 99000, 55000, 55000]

  /** The allowances of `PLAN_DATA.available`, in list order. */
  const DemoAllowances: seq<DataAmount> := [Finite(150), Unlimited, Finite(50), Finite(60)]

  // ---------------------------------------------------------------------------
  // Reading the demo's strings
  // ---------------------------------------------------------------------------

  lemma CurrentPriceIs69000()
    ensures ParsePriceNumber(CurrentPlanPrice) == 69000
  {
    assert DecimalString(69) == "69";
    assert CurrentPlanPrice == DecimalString(69) + ",000" + "원";
    ThousandsPrice(69, "원");
  }

  lemma PriceOf79000()
    ensures ParsePriceNumber("79,000원") == 79000
  {
    assert DecimalString(79) == "79";
    assert "79,000원" == DecimalString(79) + ",000" + "원";
    ThousandsPrice(79, "원");
  }

  lemma PriceOf99000()
    ensures ParsePriceNumber("99,000원") == 99000
  {
    assert DecimalString(99) == "99";
    assert "99,000원" == DecimalString(99) + ",000" + "원";
    ThousandsPrice(99, "원");
  }

  lemma PriceOf55000()
    ensures ParsePriceNumber("55,000원") == 55000
  {
    assert DecimalString(55) == "55";
    assert "55,000원" == DecimalString(55) + ",000" + "원";
    ThousandsPrice(55, "원");
  }

  lemma PricesOf(plans: seq<Plan>)
    requires |plans| == 4
    requires plans[0].price == "79,000원" && plans[1].price == "99,000원"
    requires plans[2].price == "55,000원" && plans[3].price == "55,000원"
    ensures PlanPrices(plans) == DemoPrices
  {
    PriceOf79000();
    PriceOf99000();
    PriceOf55000();
    FourPrices(plans, 79000, 99000, 55000, 55000);
  }

  /** The price list of four plans, element by element. */
  lemma FourPrices(plans: seq<Plan>, a: int, b: int, c: int, d: int)
    requires |plans| == 4
    requires ParsePriceNumber(plans[0].price) == a && ParsePriceNumber(plans[1].price) == b
    requires ParsePriceNumber(plans[2].price) == c && ParsePriceNumber(plans[3].price) == d
    ensures PlanPrices(plans) == [a, b, c, d]
  {
  }

  lemma DemoPlanPrices()
    ensures PlanPrices(AvailablePlans) == DemoPrices
  {
    PricesOf(AvailablePlans);
  }

  /** "150GB" reads as 150: the unit is not part of the first digit run. */
  lemma AllowanceOf150GB()
    ensures ParseDataGB("150GB") == Finite(150)
  {
    assert FirstDigitRun("150GB") == "150";
    assert DecimalString(150) == "150";
    DecimalRoundTrip(150);
  }

  lemma AllowanceOf50GB()
    ensures ParseDataGB("50GB") == Finite(50)
  {
    assert FirstDigitRun("50GB") == "50";
    assert DecimalString(50) == "50";
    DecimalRoundTrip(50);
  }

  lemma AllowanceOf60GB()
    ensures ParseDataGB("60GB") == Finite(60)
  {
    assert FirstDigitRun("60GB") == "60";
    assert DecimalString(60) == "60";
    DecimalRoundTrip(60);
  }

  lemma AllowanceOfUnlimited()
    ensures ParseDataGB("무제한") == Unlimited
  {
  }

  lemma AllowancesOf(plans: seq<Plan>)
    requires |plans| == 4
    requires plans[0].data == "150GB" && plans[1].data == "무제한"
    requires plans[2].data == "50GB" && plans[3].data == "60GB"
    ensures PlanData(plans) == DemoAllowances
  {
    AllowanceOf150GB();
    AllowanceOfUnlimited();
    AllowanceOf50GB();
    AllowanceOf60GB();
    FourAllowances(plans, Finite(150), Unlimited, Finite(50), Finite(60));
  }

  /** The allowance list of four plans, element by element. */
  lemma FourAllowances(plans: seq<Plan>, a: DataAmount, b: DataAmount, c: DataAmount, d: DataAmount)
    requires |plans| == 4
    requires ParseDataGB(plans[0].data) == a && ParseDataGB(plans[1].data) == b
    requires ParseDataGB(plans[2].data) == c && ParseDataGB(plans[3].data) == d
    ensures PlanData(plans) == [a, b, c, d]
  {
    var ds := PlanData(plans);
    assert ds[0] == a && ds[1] == b && ds[2] == c && ds[3] == d;
  }

  lemma DemoPlanAllowances()
    ensures PlanData(AvailablePlans) == DemoAllowances
  {
    AllowancesOf(AvailablePlans);
  }

  // ---------------------------------------------------------------------------
  // The plan each intent selects, current price 69,000
  // ---------------------------------------------------------------------------

  /** Cheapest: the first of the two 55,000 plans (T플랜 라이트). */
  lemma CheapestIsLite()
    ensures PlanByIntent(Cheapest, DemoPrices, DemoAllowances, 69000) == 2
  {
    FirstMinUnique(DemoPrices, 2);
  }

  /** Most expensive: 99,000 (T플랜 프리미엄). */
  lemma ExpensiveIsPremium()
    ensures PlanByIntent(Expensive, DemoPrices, DemoAllowances, 69000) == 1
  {
    FirstMaxUnique(DemoPrices, 1);
  }

  /** One step up: the cheapest price above 69,000 is 79,000 (T플랜 스페셜). */
  lemma UpIsSpecial()
    ensures PlanByIntent(Up, DemoPrices, DemoAllowances, 69000) == 0
  {
    assert DemoPrices[0] > 69000;
  }

  /** One step down: the dearest price below 69,000 is 55,000, and the first such plan wins. */
  lemma DownIsLite()
    ensures PlanByIntent(Down, DemoPrices, DemoAllowances, 69000) == 2
  {
    assert 0 < DemoPrices[2] < 69000;
  }

  /** Most data: the unlimited plan (T플랜 프리미엄). */
  lemma MostDataIsPremium()
    ensures PlanByIntent(MostData, DemoPrices, DemoAllowances, 69000) == 1
  {
    assert DataGreater(DemoAllowances[1], DemoAllowances[0]);
  }

  lemma NoIntentIsFirst()
    ensures PlanByIntent(NoIntent, DemoPrices, DemoAllowances, 69000) == 0
  {
  }

  // ---------------------------------------------------------------------------
  // Intent detection: the first row with a hit wins
  // ---------------------------------------------------------------------------

  /** "비싼" (expensive) contains "싼" (cheap), so the cheapest row hits first. */
  lemma ExpensiveWordReadsAsCheapest()
    ensures DetectPlanIntent("비싼") == Cheapest
  {
    assert Contains("비싼", IntentRules[0].tokens[0]);
    assert Hit(IntentRules[0].tokens, ["비싼"]);
    ResolveAt(IntentRules, ["비싼"], NoIntent, 0);
  }

  /** "더 비싼" (one more expensive) is read as cheapest, not as one step up. */
  lemma PricierWordReadsAsCheapest()
    ensures DetectPlanIntent("더 비싼") == Cheapest
  {
    assert Contains("더 비싼", IntentRules[0].tokens[0]);
    assert Hit(IntentRules[0].tokens, ["더 비싼"]);
    ResolveAt(IntentRules, ["더 비싼"], NoIntent, 0);
  }

  /** "더 싼" (one cheaper) is read as cheapest, not as one step down. */
  lemma CheaperWordReadsAsCheapest()
    ensures DetectPlanIntent("더 싼") == Cheapest
  {
    assert Contains("더 싼", IntentRules[0].tokens[0]);
    assert Hit(IntentRules[0].tokens, ["더 싼"]);
    ResolveAt(IntentRules, ["더 싼"], NoIntent, 0);
  }

  lemma RaiseWordIsUp()
    ensures DetectPlanIntent("올려줘") == Up
  {
    assert Contains("올려줘", IntentRules[2].tokens[0]);
    assert Hit(IntentRules[2].tokens, ["올려줘"]);
    ResolveAt(IntentRules, ["올려줘"], NoIntent, 2);
  }

  // ---------------------------------------------------------------------------
  // Whole requests
  // ---------------------------------------------------------------------------

  /** With no plan named, the choice is the intent's pick on the demo prices and allowances. */
  lemma ChoiceByIntent(keywords: seq<string>, intent: PlanIntent, r: nat)
    requires forall j :: 0 <= j < |AvailablePlans| ==> !Contains(Joined(keywords), Lower(AvailablePlans[j].name))
    requires DetectPlanIntent(Joined(keywords)) == intent
    requires PlanByIntent(intent, DemoPrices, DemoAllowances, 69000) == r
    ensures PlanChoice(keywords, AvailablePlans, CurrentPlanPrice) == r
  {
    DemoPlanPrices();
    DemoPlanAllowances();
    CurrentPriceIs69000();
  }

  /** Every demo plan name is longer than a two-syllable request, so none can occur in it. */
  lemma NoNameInShortText(s: string)
    requires |s| <= 6
    ensures forall j :: 0 <= j < |AvailablePlans| ==> !Contains(s, Lower(AvailablePlans[j].name))
  {
    forall j | 0 <= j < |AvailablePlans| ensures !Contains(s, Lower(AvailablePlans[j].name)) {
      NotContainsLonger(s, Lower(AvailablePlans[j].name));
    }
  }

  lemma JoinedSingleExpensive()
    ensures Joined(["비싼"]) == "비싼"
  {
    NoUpperLowerId("비싼");
  }

  /** Asking for an expensive plan yields the cheapest one (T플랜 라이트). */
  lemma ExpensiveRequestGetsCheapestPlan()
    ensures PlanChoice(["비싼"], AvailablePlans, CurrentPlanPrice) == 2
  {
    JoinedSingleExpensive();
    NoNameInShortText("비싼");
    ExpensiveWordReadsAsCheapest();
    CheapestIsLite();
    ChoiceByIntent(["비싼"], Cheapest, 2);
  }

  lemma JoinedSingleRaise()
    ensures Joined(["올려줘"]) == "올려줘"
  {
    NoUpperLowerId("올려줘");
  }

  /** Asking to go up one step from 69,000 yields 79,000 (T플랜 스페셜). */
  lemma RaiseRequestGetsSpecial()
    ensures PlanChoice(["올려줘"], AvailablePlans, CurrentPlanPrice) == 0
  {
    JoinedSingleRaise();
    NoNameInShortText("올려줘");
    RaiseWordIsUp();
    UpIsSpecial();
    ChoiceByIntent(["올려줘"], Up, 0);
  }
}
