/**
 * The resolvers of the action planner: from the search keywords of an
 * utterance they pick what each CRM screen should select (a roaming region and
 * product, a plan, a device and its discount option, a lost/stolen option, a
 * cancellation reason, an add-on). Every resolver is written over the reference
 * data it reads, so the lemmas hold for any data and the fixed data of the demo
 * is plugged in by the callers.
 */
module ActionPlanner {
  import opened Text
  import opened Rules
  import opened CrmData
  import opened Pricing
  import opened Selection

  /** `keywords.join(" ").toLowerCase()`: the text most resolvers search. */
  function Joined(keywords: seq<string>): string {
    Lower(Join(keywords, " "))
  }

  /** The index filter of the brand and add-on tables: `index >= 0`. */
  function IsIndex(): int -> bool {
    i => i >= 0
  }

  // ---------------------------------------------------------------------------
  // Roaming region and product
  // ---------------------------------------------------------------------------

  /** `REGION_KEYWORD_MAP`, in insertion order (the order `Object.entries` visits it). */
  const RegionRules: seq<Rule<string>> := [
    Rule("유럽", ["유럽", "프랑스", "독일", "영국", "이탈리아", "스페인", "스위스", "네덜란드", "오스트리아"]),
    Rule("미주", ["미국", "미주", "캐나다", "하와이", "괌", "사이판"]),
    Rule("아시아", ["아시아"]),
    Rule("일본", ["일본", "도쿄", "오사카", "교토", "후쿠오카", "삿포로"]),
    Rule("중국", ["중국", "베이징", "상하이", "광저우", "선전"]),
    Rule("동남아", ["동남아", "베트남", "태국", "필리핀", "싱가포르", "인도네시아", "발리", "방콕", "다낭", "세부"]),
    Rule("대양주", ["대양주", "호주", "뉴질랜드", "시드니", "멜버른"])
  ]

  const AsiaRegions: set<string> := {"아시아", "일본", "중국", "동남아"}

  /**
   * `resolveRoamingRegion`: the region of the first table row one of whose
   * keywords a lower-cased search keyword contains; Europe when none does.
   */
  function ResolveRoamingRegion(keywords: seq<string>): string {
    Resolve(RegionRules, Always(), LowerAll(keywords), "유럽")
  }

  /** `ResolveRoamingRegion` is the first-match lookup of the region table. */
  lemma RoamingRegionIsFirstMatch(keywords: seq<string>)
    ensures IsFirstMatch(RegionRules, Always(), LowerAll(keywords), "유럽", ResolveRoamingRegion(keywords))
  {
    ResolveIsFirstMatch(RegionRules, Always(), LowerAll(keywords), "유럽");
  }

  /** The rows of the region table are the regions the roaming screen offers, in its order. */
  lemma RegionRowsAreScreenRegions()
    ensures |RegionRules| == |RoamingRegions|
    ensures forall n :: 0 <= n < |RegionRules| ==> RegionRules[n].tag == RoamingRegions[n]
  {
  }

  /** So the resolved region always names a button of the roaming screen. */
  lemma RegionIsOffered(keywords: seq<string>)
    ensures ResolveRoamingRegion(keywords) in RoamingRegions
  {
    RegionRowsAreScreenRegions();
    var k := FirstFiring(RegionRules, Always(), LowerAll(keywords));
    if k >= 0 {
      assert ResolveRoamingRegion(keywords) == RoamingRegions[k];
    } else {
      assert ResolveRoamingRegion(keywords) == RoamingRegions[0];
    }
  }

  predicate IsAsiaProduct(p: RoamingProduct) { p.region == "아시아" }
  predicate IsEuropeAmericaProduct(p: RoamingProduct) { Contains(p.region, "유럽") }
  predicate IsWorldProduct(p: RoamingProduct) { p.region == "전세계" }

  /**
   * `resolveRoamingProduct`: for an Asian region the first Asia product, for
   * Europe or the Americas the first product whose region mentions Europe;
   * otherwise, or when that product is missing, the first worldwide product;
   * product 0 when even that is missing.
   */
  function ResolveRoamingProduct(region: string, products: seq<RoamingProduct>): (index: nat)
    requires |products| > 0
    ensures index < |products|
    ensures region in AsiaRegions && (exists j :: 0 <= j < |products| && IsAsiaProduct(products[j])) ==>
      IsAsiaProduct(products[index]) && forall j :: 0 <= j < index ==> !IsAsiaProduct(products[j])
    ensures (region == "유럽" || region == "미주") &&
            (exists j :: 0 <= j < |products| && IsEuropeAmericaProduct(products[j])) ==>
      IsEuropeAmericaProduct(products[index]) && forall j :: 0 <= j < index ==> !IsEuropeAmericaProduct(products[j])
    ensures !(region in AsiaRegions && exists j :: 0 <= j < |products| && IsAsiaProduct(products[j])) &&
            !((region == "유럽" || region == "미주") &&
              exists j :: 0 <= j < |products| && IsEuropeAmericaProduct(products[j])) ==>
      if exists j :: 0 <= j < |products| && IsWorldProduct(products[j]) then
        IsWorldProduct(products[index]) && forall j :: 0 <= j < index ==> !IsWorldProduct(products[j])
      else index == 0
  {
    var asia := FindIndex(products, IsAsiaProduct);
    var europeAmerica := FindIndex(products, IsEuropeAmericaProduct);
    var world := FindIndex(products, IsWorldProduct);
    if region in AsiaRegions && asia >= 0 then asia
    else if (region == "유럽" || region == "미주") && europeAmerica >= 0 then europeAmerica
    else if world >= 0 then world
    else 0
  }

  // ---------------------------------------------------------------------------
  // Plan
  // ---------------------------------------------------------------------------

  /** `PlanIntent`; `NoIntent` is "unknown". */
  datatype PlanIntent = Cheapest | Expensive | Up | Down | MostData | NoIntent

  /** `PLAN_INTENT_KEYWORDS`, in order. */
  const IntentRules: seq<Rule<PlanIntent>> := [
    Rule(Cheapest, ["싼", "저렴", "최저", "제일 싼", "가장 싼", "싸게", "절약", "아끼"]),
    Rule(Expensive, ["비싼", "최고", "프리미엄", "제일 비싼", "가장 비싼", "좋은", "최상"]),
    Rule(Up, ["올려", "올리", "업그레이드", "높은", "높여", "더 비싼", "한 단계 위", "하나 위", "상위"]),
    Rule(Down, ["내려", "내리", "다운그레이드", "낮은", "낮춰", "더 싼", "한 단계 아래", "하나 아래", "하위"]),
    Rule(MostData, ["데이터 많", "데이터 무제한", "무제한", "데이터 크", "용량 큰", "용량 많"])
  ]

  /** The intent of the first row one of whose keywords the joined text contains. */
  function DetectPlanIntent(joined: string): (intent: PlanIntent)
    ensures IsFirstMatch(IntentRules, Always(), [joined], NoIntent, intent)
  {
    ResolveIsFirstMatch(IntentRules, Always(), [joined], NoIntent);
    Resolve(IntentRules, Always(), [joined], NoIntent)
  }

  /** `xs.map(f)`: the projection every resolver scans (prices, allowances, names). */
  function MapSeq<T, U>(xs: seq<T>, f: T -> U): (ys: seq<U>)
    ensures |ys| == |xs| && forall i :: 0 <= i < |xs| ==> ys[i] == f(xs[i])
  {
    seq(|xs|, i requires 0 <= i < |xs| => f(xs[i]))
  }

  function PlanPrices(plans: seq<Plan>): seq<int> {
    MapSeq(plans, (p: Plan) => ParsePriceNumber(p.price))
  }

  function PlanData(plans: seq<Plan>): seq<DataAmount> {
    MapSeq(plans, (p: Plan) => ParseDataGB(p.data))
  }

  function PlanNames(plans: seq<Plan>): seq<string> {
    MapSeq(plans, (p: Plan) => p.name)
  }

  /**
   * The `switch (intent)` of `resolvePlanIndex` over prices ps, allowances ds
   * and the current price: cheapest and most expensive; one step up is the
   * cheapest price above the current one, else the most expensive; one step
   * down is the dearest positive price below it, else the cheapest; most data;
   * and plan 0 without an intent. Every scan keeps the first index on ties.
   */
  function PlanByIntent(intent: PlanIntent, ps: seq<int>, ds: seq<DataAmount>, current: int): (r: nat)
    requires |ps| > 0 && |ds| == |ps|
    ensures r < |ps|
    ensures intent == Cheapest ==>
      (forall j :: 0 <= j < |ps| ==> ps[r] <= ps[j]) && forall j :: 0 <= j < r ==> ps[j] > ps[r]
    ensures intent == Expensive ==>
      (forall j :: 0 <= j < |ps| ==> ps[r] >= ps[j]) && forall j :: 0 <= j < r ==> ps[j] < ps[r]
    ensures intent == Up ==>
      if exists j :: 0 <= j < |ps| && ps[j] > current then
        && ps[r] > current
        && (forall j :: 0 <= j < |ps| && ps[j] > current ==> ps[r] <= ps[j])
        && forall j :: 0 <= j < r && ps[j] > current ==> ps[j] > ps[r]
      else (forall j :: 0 <= j < |ps| ==> ps[r] >= ps[j]) && forall j :: 0 <= j < r ==> ps[j] < ps[r]
    ensures intent == Down ==>
      if exists j :: 0 <= j < |ps| && 0 < ps[j] < current then
        && 0 < ps[r] < current
        && (forall j :: 0 <= j < |ps| && 0 < ps[j] < current ==> ps[r] >= ps[j])
        && forall j :: 0 <= j < r && 0 < ps[j] < current ==> ps[j] < ps[r]
      else (forall j :: 0 <= j < |ps| ==> ps[r] <= ps[j]) && forall j :: 0 <= j < r ==> ps[j] > ps[r]
    ensures intent == MostData ==>
      (forall j :: 0 <= j < |ds| ==> !DataGreater(ds[j], ds[r])) && forall j :: 0 <= j < r ==> DataGreater(ds[r], ds[j])
    ensures intent == NoIntent ==> r == 0
  {
    match intent
    case Cheapest => FirstMin(ps)
    case Expensive => FirstMax(ps)
    case Up =>
      var k := NearestAbove(ps, current);
      if k >= 0 then k else FirstMax(ps)
    case Down =>
      var k := NearestBelow(ps, current);
      if k >= 0 then k else FirstMin(ps)
    case MostData => FirstMaxData(ds)
    case NoIntent => 0
  }

  /**
   * `resolvePlanIndex` over the available plans and the current plan's price:
   * a plan whose lower-cased name occurs in the joined text wins (the first such
   * plan); otherwise the plan the detected intent selects.
   */
  function PlanChoice(keywords: seq<string>, plans: seq<Plan>, currentPrice: string): (r: nat)
    requires |plans| > 0
    ensures r < |plans|
    ensures (exists j :: 0 <= j < |plans| && Contains(Joined(keywords), Lower(plans[j].name))) ==>
      Contains(Joined(keywords), Lower(plans[r].name)) &&
      forall j :: 0 <= j < r ==> !Contains(Joined(keywords), Lower(plans[j].name))
    ensures (forall j :: 0 <= j < |plans| ==> !Contains(Joined(keywords), Lower(plans[j].name))) ==>
      r == PlanByIntent(DetectPlanIntent(Joined(keywords)), PlanPrices(plans), PlanData(plans),
                        ParsePriceNumber(currentPrice))
  {
    var joined := Joined(keywords);
    var names := LowerAll(PlanNames(plans));
    assert forall j :: 0 <= j < |plans| ==> names[j] == Lower(plans[j].name);
    var named := FirstContained(joined, names);
    if named >= 0 then named
    else PlanByIntent(DetectPlanIntent(joined), PlanPrices(plans), PlanData(plans), ParsePriceNumber(currentPrice))
  }

  /** `resolvePlanByIntent`: the cheapest or the most expensive plan, the first on ties. */
  method ResolvePlanByIntent(intent: PlanIntent, plans: seq<Plan>) returns (index: nat, name: string)
    requires intent == Cheapest || intent == Expensive
    requires |plans| > 0
    ensures index == (if intent == Cheapest then FirstMin(PlanPrices(plans)) else FirstMax(PlanPrices(plans)))
    ensures name == plans[index].name
  {
    if intent == Cheapest {
      index := MinIndex(PlanPrices(plans));
    } else {
      index := MaxIndex(PlanPrices(plans));
    }
    name := plans[index].name;
  }

  /**
   * `resolvePlanIndex`: the intent loop (stopping at the first row that hits),
   * the name loop, then the scan the intent calls for.
   */
  method ResolvePlanIndex(keywords: seq<string>, plans: seq<Plan>, currentPrice: string)
    returns (index: nat, name: string)
    requires |plans| > 0
    ensures index == PlanChoice(keywords, plans, currentPrice)
    ensures name == plans[index].name
  {
    var joined := Joined(keywords);
    var intent := FirstFiringTag(IntentRules, joined, NoIntent);

    var named := NameMatchIndex(joined, PlanNames(plans));
    if named >= 0 {
      return named, plans[named].name;
    }

    var current := ParsePriceNumber(currentPrice);
    var ps := PlanPrices(plans);
    match intent {
      case Cheapest =>
        index := MinIndex(ps);
      case Expensive =>
        index := MaxIndex(ps);
      case Up =>
        var best := NearestAboveIndex(ps, current);
        if best >= 0 {
          index := best;
        } else {
          index, name := ResolvePlanByIntent(Expensive, plans);
        }
      case Down =>
        var best := NearestBelowIndex(ps, current);
        if best >= 0 {
          index := best;
        } else {
          index, name := ResolvePlanByIntent(Cheapest, plans);
        }
      case MostData =>
        index := MaxDataIndex(PlanData(plans));
      case NoIntent =>
        index := 0;
    }
    name := plans[index].name;
  }

  /** A plan named in the utterance is chosen whatever the intent words say. */
  lemma NameBeatsIntent(keywords: seq<string>, plans: seq<Plan>, currentPrice: string, j: nat)
    requires j < |plans| && Contains(Joined(keywords), Lower(plans[j].name))
    ensures PlanChoice(keywords, plans, currentPrice) <= j
    ensures Contains(Joined(keywords), Lower(plans[PlanChoice(keywords, plans, currentPrice)].name))
  {
  }

  // ---------------------------------------------------------------------------
  // Device and discount option
  // ---------------------------------------------------------------------------

  /** A row of the brand table: its keywords and the model-name fragment it looks for. */
  datatype BrandRow = BrandRow(keywords: seq<string>, fragment: string)

  /** `brandMap`, in order. */
  const BrandRows: seq<BrandRow> := [
    BrandRow(["아이폰", "iphone", "애플"], "iphone"),
    BrandRow(["폴드", "fold", "접는", "폴더블"], "fold"),
    BrandRow(["갤럭시", "galaxy", "삼성", "s25"], "galaxy s")
  ]

  predicate NameHas(d: Device, fragment: string) {
    Contains(Lower(d.name), fragment)
  }

  /** `devices.findIndex((d) => d.name.toLowerCase().includes(fragment))` */
  function BrandIndex(devices: seq<Device>, fragment: string): (r: int)
    ensures -1 <= r < |devices|
    ensures r >= 0 ==> NameHas(devices[r], fragment) && forall j :: 0 <= j < r ==> !NameHas(devices[j], fragment)
    ensures r < 0 ==> forall j :: 0 <= j < |devices| ==> !NameHas(devices[j], fragment)
  {
    FindIndex(devices, (d: Device) => NameHas(d, fragment))
  }

  /** The brand table as a rule table whose tags are device indices (or -1). */
  function BrandTable(devices: seq<Device>): (rules: seq<Rule<int>>)
    ensures |rules| == |BrandRows|
    ensures forall n :: 0 <= n < |rules| ==>
      rules[n] == Rule(BrandIndex(devices, BrandRows[n].fragment), BrandRows[n].keywords)
  {
    seq(|BrandRows|, n requires 0 <= n < |BrandRows| =>
      Rule(BrandIndex(devices, BrandRows[n].fragment), BrandRows[n].keywords))
  }

  const CheapWords: seq<string> := ["싼", "저렴", "싸게"]
  const PremiumWords: seq<string> := ["비싼", "최고", "최상"]

  function DevicePrices(devices: seq<Device>): seq<int> {
    MapSeq(devices, (d: Device) => ParsePriceNumber(d.price))
  }

  function DeviceNames(devices: seq<Device>): seq<string> {
    MapSeq(devices, (d: Device) => d.name)
  }

  /**
   * `resolveDevice`: a device whose lower-cased name occurs in the joined text;
   * else the device of the first brand row that has a device and a keyword in
   * the text; else the cheapest device for a cheap word, the dearest for a
   * premium word; else device 0.
   */
  function DeviceChoice(keywords: seq<string>, devices: seq<Device>): (r: nat)
    requires |devices| > 0
    ensures r < |devices|
    ensures Mentioned(Joined(keywords), DeviceNames(devices)) ==> FirstMentioned(Joined(keywords), DeviceNames(devices), r)
    ensures !Mentioned(Joined(keywords), DeviceNames(devices)) ==> DeviceFallback(Joined(keywords), devices, r)
  {
    var joined := Joined(keywords);
    MentionLookup(joined, DeviceNames(devices));
    var named := FirstContained(joined, LowerAll(DeviceNames(devices)));
    var brand := Resolve(BrandTable(devices), IsIndex(), [joined], -1);
    BrandResolvesToDevice(devices, joined);
    if named >= 0 then named
    else if brand >= 0 then brand
    else if AnyContained(joined, CheapWords) then FirstMin(DevicePrices(devices))
    else if AnyContained(joined, PremiumWords) then FirstMax(DevicePrices(devices))
    else 0
  }

  /**
   * The choice when no device is named: the brand table's device; else for a
   * cheap word a device no dearer than any other, for a premium word one no
   * cheaper than any other, in both cases the first such; else device 0.
   */
  predicate DeviceFallback(joined: string, devices: seq<Device>, r: nat)
    requires r < |devices|
  {
    var brand := Resolve(BrandTable(devices), IsIndex(), [joined], -1);
    if brand >= 0 then r == brand
    else if AnyContained(joined, CheapWords) then
      && (forall j :: 0 <= j < |devices| ==> ParsePriceNumber(devices[r].price) <= ParsePriceNumber(devices[j].price))
      && forall j :: 0 <= j < r ==> ParsePriceNumber(devices[j].price) > ParsePriceNumber(devices[r].price)
    else if AnyContained(joined, PremiumWords) then
      && (forall j :: 0 <= j < |devices| ==> ParsePriceNumber(devices[r].price) >= ParsePriceNumber(devices[j].price))
      && forall j :: 0 <= j < r ==> ParsePriceNumber(devices[j].price) < ParsePriceNumber(devices[r].price)
    else r == 0
  }

  /** A non-negative brand lookup is a device index, and a brand table tag names the fragment's device. */
  lemma BrandResolvesToDevice(devices: seq<Device>, joined: string)
    ensures var b := Resolve(BrandTable(devices), IsIndex(), [joined], -1);
      -1 <= b < |devices| && (b >= 0 ==> exists n :: 0 <= n < |BrandRows| && NameHas(devices[b], BrandRows[n].fragment))
  {
    var rules := BrandTable(devices);
    var k := FirstFiring(rules, IsIndex(), [joined]);
    if k >= 0 {
      assert rules[k].tag == BrandIndex(devices, BrandRows[k].fragment);
    }
  }

  /** `resolveDevice`: the name loop, the brand loop, then the price scans. */
  method ResolveDevice(keywords: seq<string>, devices: seq<Device>) returns (index: nat, name: string)
    requires |devices| > 0
    ensures index == DeviceChoice(keywords, devices)
    ensures name == devices[index].name
  {
    var joined := Joined(keywords);
    var named := NameMatchIndex(joined, DeviceNames(devices));
    if named >= 0 {
      return named, devices[named].name;
    }
    var rules := BrandTable(devices);
    BrandResolvesToDevice(devices, joined);
    for b := 0 to |BrandRows|
      invariant NoneFiresBelow(rules, IsIndex(), [joined], b)
    {
      var deviceIndex := BrandIndex(devices, BrandRows[b].fragment);
      HitOne(BrandRows[b].keywords, joined);
      if deviceIndex >= 0 && AnyContained(joined, BrandRows[b].keywords) {
        ResolveStopsAt(rules, IsIndex(), [joined], -1, b);
        return deviceIndex, devices[deviceIndex].name;
      }
      NoneFiresStep(rules, IsIndex(), [joined], b);
    }
    ResolveFallsBack(rules, IsIndex(), [joined], -1);
    if AnyContained(joined, CheapWords) {
      index := MinIndex(DevicePrices(devices));
    } else if AnyContained(joined, PremiumWords) {
      index := MaxIndex(DevicePrices(devices));
    } else {
      index := 0;
    }
    name := devices[index].name;
  }

  const DiscountWords: seq<string> := ["약정", "할인", "선택약정"]

  /**
   * `resolveDeviceOption`: the selective-discount option (the second) exactly
   * when a discount word occurs in the joined text, else the subsidy (the first).
   */
  function ResolveDeviceOption(keywords: seq<string>, options: seq<string>): (option: string)
    requires |options| >= 2
    ensures option == options[0] || option == options[1]
    ensures (exists i :: 0 <= i < |DiscountWords| && Contains(Joined(keywords), DiscountWords[i])) ==> option == options[1]
    ensures (forall i :: 0 <= i < |DiscountWords| ==> !Contains(Joined(keywords), DiscountWords[i])) ==> option == options[0]
  {
    if AnyContained(Joined(keywords), DiscountWords) then options[1] else options[0]
  }

  /** "선택약정" contains "약정", so the third discount word never decides anything alone. */
  lemma ThirdDiscountWordRedundant(s: string)
    requires Contains(s, DiscountWords[2])
    ensures Contains(s, DiscountWords[0])
  {
    ContainsIffOccurs(s, DiscountWords[2]);
    var i: nat :| OccursAt(s, DiscountWords[2], i);
    assert s[i + 2..i + 4] == DiscountWords[0];
    assert OccursAt(s, DiscountWords[0], i + 2);
    ContainsIffOccurs(s, DiscountWords[0]);
  }

  // ---------------------------------------------------------------------------
  // Lost / stolen
  // ---------------------------------------------------------------------------

  const TheftWords: seq<string> := ["도난", "훔", "도둑", "절도"]

  /**
   * `resolveLostStolenOption`: the caption of the theft option (the second)
   * exactly when a theft word occurs in the joined text, else that of the loss
   * option (the first).
   */
  function ResolveLostStolenOption(keywords: seq<string>, options: seq<LostOption>): (caption: string)
    requires |options| >= 2
    ensures caption == options[0].caption || caption == options[1].caption
    ensures (exists i :: 0 <= i < |TheftWords| && Contains(Joined(keywords), TheftWords[i])) ==>
      caption == options[1].caption
    ensures (forall i :: 0 <= i < |TheftWords| ==> !Contains(Joined(keywords), TheftWords[i])) ==>
      caption == options[0].caption
  {
    if AnyContained(Joined(keywords), TheftWords) then options[1].caption else options[0].caption
  }

  // ---------------------------------------------------------------------------
  // Cancellation reason
  // ---------------------------------------------------------------------------

  /** `reasonKeywordMap`, in order. */
  const ReasonRules: seq<Rule<string>> := [
    Rule("타사 이동", ["타사", "번호이동", "이동", "다른 통신사", "kt", "lg"]),
    Rule("요금 불만", ["요금", "비싸", "비싼", "과금", "청구", "돈"]),
    Rule("서비스 불만", ["서비스", "불만", "불편", "품질", "속도", "느려"]),
    Rule("해외 이주", ["해외", "이민", "이주", "유학", "출국"])
  ]

  /** `reasons.includes(reason)` */
  function Listed(reasons: seq<string>): string -> bool {
    r => r in reasons
  }

  /**
   * `resolveCancellationReason`: the reason of the first row that the screen
   * lists and one of whose keywords occurs in the joined text; "기타" otherwise.
   */
  function ResolveCancellationReason(keywords: seq<string>, reasons: seq<string>): (reason: string)
    ensures IsFirstMatch(ReasonRules, Listed(reasons), [Joined(keywords)], "기타", reason)
  {
    ResolveIsFirstMatch(ReasonRules, Listed(reasons), [Joined(keywords)], "기타");
    Resolve(ReasonRules, Listed(reasons), [Joined(keywords)], "기타")
  }

  /** The resolved reason is one the screen lists, as long as the list holds the fallback. */
  lemma ReasonIsListed(keywords: seq<string>, reasons: seq<string>)
    requires "기타" in reasons
    ensures ResolveCancellationReason(keywords, reasons) in reasons
  {
    var k := FirstFiring(ReasonRules, Listed(reasons), [Joined(keywords)]);
    if k >= 0 {
      assert Listed(reasons)(ReasonRules[k].tag);
    }
  }

  // ---------------------------------------------------------------------------
  // Data add-on
  // ---------------------------------------------------------------------------

  /**
   * A row of `addonKeywordMap`: its keywords and its name test, which looks for
   * any of `fragments` in the name, lower-cased first when `caseless` is set.
   */
  datatype AddonRow = AddonRow(keywords: seq<string>, fragments: seq<string>, caseless: bool)

  const AddonRows: seq<AddonRow> := [
    AddonRow(["2gb", "2기가", "리필 2", "쿠폰 2"], ["2GB"], false),
    AddonRow(["1gb", "1기가", "리필 1", "쿠폰 1", "리필"], ["1GB"], false),
    AddonRow(["통화", "전화"], ["통화"], false),
    AddonRow(["멤버십", "vip"], ["멤버십"], true),
    AddonRow(["스팸", "차단"], ["스팸"], false),
    AddonRow(["보험", "안심", "가드"], ["가드", "안심"], false)
  ]

  /** `rule.match(name)` */
  predicate NameFits(row: AddonRow, name: string) {
    AnyContained(if row.caseless then Lower(name) else name, row.fragments)
  }

  /** `addons.findIndex((a) => rule.match(a.name))` */
  function AddonIndexOf(addons: seq<Addon>, row: AddonRow): (r: int)
    ensures -1 <= r < |addons|
    ensures r >= 0 ==> NameFits(row, addons[r].name) && forall j :: 0 <= j < r ==> !NameFits(row, addons[j].name)
    ensures r < 0 ==> forall j :: 0 <= j < |addons| ==> !NameFits(row, addons[j].name)
  {
    FindIndex(addons, (a: Addon) => NameFits(row, a.name))
  }

  /** The add-on table as a rule table whose tags are add-on indices (or -1). */
  function AddonTable(addons: seq<Addon>): (rules: seq<Rule<int>>)
    ensures |rules| == |AddonRows|
    ensures forall n :: 0 <= n < |rules| ==>
      rules[n] == Rule(AddonIndexOf(addons, AddonRows[n]), AddonRows[n].keywords)
  {
    seq(|AddonRows|, n requires 0 <= n < |AddonRows| =>
      Rule(AddonIndexOf(addons, AddonRows[n]), AddonRows[n].keywords))
  }

  predicate Inactive(a: Addon) { !a.active }

  function AddonNames(addons: seq<Addon>): seq<string> {
    MapSeq(addons, (a: Addon) => a.name)
  }

  /**
   * `resolveAddonIndex`: an add-on whose lower-cased name occurs in the joined
   * text; else the first add-on fitting the first row that has one and a
   * keyword in the text; else the first inactive add-on; else add-on 0.
   */
  function AddonChoice(keywords: seq<string>, addons: seq<Addon>): (r: nat)
    requires |addons| > 0
    ensures r < |addons|
    ensures Mentioned(Joined(keywords), AddonNames(addons)) ==> FirstMentioned(Joined(keywords), AddonNames(addons), r)
    ensures !Mentioned(Joined(keywords), AddonNames(addons)) ==> AddonFallback(Joined(keywords), addons, r)
  {
    var joined := Joined(keywords);
    MentionLookup(joined, AddonNames(addons));
    var named := FirstContained(joined, LowerAll(AddonNames(addons)));
    var ruled := Resolve(AddonTable(addons), IsIndex(), [joined], -1);
    AddonRuleResolvesToAddon(addons, joined);
    var inactive := FindIndex(addons, Inactive);
    if named >= 0 then named
    else if ruled >= 0 then ruled
    else if inactive >= 0 then inactive
    else 0
  }

  /**
   * The choice when no add-on is named: the add-on of the first keyword row
   * that has one; else the first inactive add-on; else add-on 0.
   */
  predicate AddonFallback(joined: string, addons: seq<Addon>, r: nat)
    requires r < |addons|
  {
    var ruled := Resolve(AddonTable(addons), IsIndex(), [joined], -1);
    if ruled >= 0 then r == ruled
    else if exists j :: 0 <= j < |addons| && Inactive(addons[j]) then
      Inactive(addons[r]) && forall j :: 0 <= j < r ==> !Inactive(addons[j])
    else r == 0
  }

  /** A non-negative add-on lookup is an add-on index fitting some row's name test. */
  lemma AddonRuleResolvesToAddon(addons: seq<Addon>, joined: string)
    ensures var a := Resolve(AddonTable(addons), IsIndex(), [joined], -1);
      -1 <= a < |addons| && (a >= 0 ==> exists n :: 0 <= n < |AddonRows| && NameFits(AddonRows[n], addons[a].name))
  {
    var rules := AddonTable(addons);
    var k := FirstFiring(rules, IsIndex(), [joined]);
    if k >= 0 {
      assert rules[k].tag == AddonIndexOf(addons, AddonRows[k]);
    }
  }

  /** A keyword row that has no keyword in the text, or no add-on fitting it, does not fire. */
  lemma AddonRowSilent(addons: seq<Addon>, joined: string, n: nat, rules: seq<Rule<int>>)
    requires rules == AddonTable(addons) && n < |AddonRows|
    requires !AnyContained(joined, AddonRows[n].keywords) || AddonIndexOf(addons, AddonRows[n]) < 0
    ensures !Fires(rules[n], IsIndex(), [joined])
  {
    HitOne(AddonRows[n].keywords, joined);
  }

  /** `resolveAddonIndex`: the name loop, the keyword-row loop, then the first inactive add-on. */
  method ResolveAddonIndex(keywords: seq<string>, addons: seq<Addon>) returns (index: nat, name: string)
    requires |addons| > 0
    ensures index == AddonChoice(keywords, addons)
    ensures name == addons[index].name
  {
    var joined := Joined(keywords);
    var named := NameMatchIndex(joined, AddonNames(addons));
    if named >= 0 {
      return named, addons[named].name;
    }
    var rules := AddonTable(addons);
    AddonRuleResolvesToAddon(addons, joined);
    for n := 0 to |AddonRows|
      invariant NoneFiresBelow(rules, IsIndex(), [joined], n)
    {
      if AnyContained(joined, AddonRows[n].keywords) {
        var idx := AddonIndexOf(addons, AddonRows[n]);
        if idx >= 0 {
          HitOne(AddonRows[n].keywords, joined);
          ResolveStopsAt(rules, IsIndex(), [joined], -1, n);
          return idx, addons[idx].name;
        }
      }
      AddonRowSilent(addons, joined, n, rules);
      NoneFiresStep(rules, IsIndex(), [joined], n);
    }
    ResolveFallsBack(rules, IsIndex(), [joined], -1);
    var inactive := FindIndex(addons, Inactive);
    index := if inactive >= 0 then inactive else 0;
    name := addons[index].name;
  }
}
