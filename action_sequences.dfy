/**
 * The action sequences the assistant plays on a CRM screen: for each screen a
 * fixed shape of cursor steps (which element to point at, what to do there, a
 * caption, delays in milliseconds) paired one to one with the reducer commands
 * that carry out each step, filled in from what the resolvers picked.
 */
module ActionSequences {
  import opened Wrappers
  import opened Text
  import opened CrmTypes
  import opened CrmData
  import opened ActionPlanner

  /** A click step without a value. */
  function ClickStep(elementId: string, caption: string, delayBefore: nat, delayAfter: nat): Step {
    Step(elementId, Click, None, caption, delayBefore, delayAfter)
  }

  /**
   * The shape every sequence has: one command per step, two or three steps,
   * every command aimed at the sequence's screen and none a RESET, only the
   * last one commits it, and the last step clicks that screen's apply button.
   */
  predicate WellFormed(screen: Screen, s: ActionSequence) {
    && |s.steps| == |s.dispatches|
    && 2 <= |s.steps| <= 3
    && (forall i :: 0 <= i < |s.dispatches| ==> Target(s.dispatches[i]) == screen && !s.dispatches[i].Reset?)
    && (forall i :: 0 <= i < |s.dispatches| - 1 ==> !IsCommit(s.dispatches[i]))
    && s.dispatches[|s.dispatches| - 1] == CommitOf(screen)
    && s.steps[|s.steps| - 1].action == Click
    && IsPrefix("apply-", s.steps[|s.steps| - 1].elementId)
  }

  /** The element id of an indexed row, such as `product-2`. */
  function IndexedId(prefix: string, n: nat): string {
    prefix + DecimalString(n)
  }

  /** The index can be read back from its element id. */
  lemma IndexedIdRoundTrip(prefix: string, n: nat)
    ensures IsPrefix(prefix, IndexedId(prefix, n))
    ensures var rest := IndexedId(prefix, n)[|prefix|..]; AllDigits(rest) && DecimalValue(rest) == n
  {
    assert IndexedId(prefix, n)[|prefix|..] == DecimalString(n);
    DecimalRoundTrip(n);
  }

  /** Distinct rows have distinct element ids. */
  lemma IndexedIdInjective(prefix: string, m: nat, n: nat)
    requires IndexedId(prefix, m) == IndexedId(prefix, n)
    ensures m == n
  {
    IndexedIdRoundTrip(prefix, m);
    IndexedIdRoundTrip(prefix, n);
  }

  // Each builder is the fixed step layout of its screen (`…Steps`, which states
  // the shape) filled in with what the resolvers picked (`Build…Sequence`).

  function RoamingSteps(region: string, product: nat, productName: string): (s: ActionSequence)
    ensures WellFormed(Roaming, s)
    ensures s.dispatches[..2] == [SelectRegion(region), SelectProduct(product)]
    ensures s.steps[0].elementId == "region-" + region && s.steps[0].caption == region + " 지역 선택"
    ensures s.steps[1].elementId == IndexedId("product-", product) && s.steps[1].caption == productName + " 선택"
  {
    ActionSequence(
      [ ClickStep("region-" + region, region + " 지역 선택", 400, 800),
        ClickStep(IndexedId("product-", product), productName + " 선택", 300, 800),
        ClickStep("apply-roaming", "로밍 신청 처리", 300, 1000) ],
      [ SelectRegion(region), SelectProduct(product), ApplyRoaming ])
  }

  /** `buildRoamingSequence`: pick the region, pick its product, apply. */
  function BuildRoamingSequence(keywords: seq<string>, data: ReferenceData): (s: ActionSequence)
    requires Usable(data)
    ensures WellFormed(Roaming, s)
    ensures s.dispatches[0] == SelectRegion(ResolveRoamingRegion(keywords))
    ensures s.dispatches[1] == SelectProduct(ResolveRoamingProduct(ResolveRoamingRegion(keywords), data.products))
    ensures s.steps[0].elementId == "region-" + s.dispatches[0].region
    ensures 0 <= s.dispatches[1].productIndex < |data.products|
    ensures s.steps[1].elementId == IndexedId("product-", s.dispatches[1].productIndex)
    ensures s.steps[1].caption == data.products[s.dispatches[1].productIndex].name + " 선택"
  {
    var region := ResolveRoamingRegion(keywords);
    var product := ResolveRoamingProduct(region, data.products);
    var s := RoamingSteps(region, product, data.products[product].name);
    assert s.dispatches[0] == s.dispatches[..2][0] && s.dispatches[1] == s.dispatches[..2][1];
    s
  }

  function PlanChangeSteps(plan: nat, planName: string): (s: ActionSequence)
    ensures WellFormed(PlanChange, s)
    ensures s.dispatches[0] == SelectPlan(plan)
    ensures s.steps[0].elementId == IndexedId("plan-", plan) && s.steps[0].caption == planName + " 선택"
  {
    ActionSequence(
      [ ClickStep(IndexedId("plan-", plan), planName + " 선택", 400, 800),
        ClickStep("apply-plan", "요금제 변경 처리", 300, 1000) ],
      [ SelectPlan(plan), ChangePlan ])
  }

  /** `buildPlanChangeSequence`: pick the plan, change. */
  function BuildPlanChangeSequence(keywords: seq<string>, data: ReferenceData): (s: ActionSequence)
    requires Usable(data)
    ensures WellFormed(PlanChange, s)
    ensures s.dispatches[0] == SelectPlan(PlanChoice(keywords, data.plans, data.currentPrice))
    ensures 0 <= s.dispatches[0].planIndex < |data.plans|
    ensures s.steps[0].elementId == IndexedId("plan-", s.dispatches[0].planIndex)
    ensures s.steps[0].caption == data.plans[s.dispatches[0].planIndex].name + " 선택"
  {
    var plan := PlanChoice(keywords, data.plans, data.currentPrice);
    PlanChangeSteps(plan, data.plans[plan].name)
  }

  function DeviceChangeSteps(option: string, device: nat, deviceName: string): (s: ActionSequence)
    ensures WellFormed(DeviceChange, s)
    ensures s.dispatches[..2] == [SelectDeviceOption(option), SelectDevice(device)]
    ensures s.steps[0].elementId == "option-" + option && s.steps[0].caption == option + " 선택"
    ensures s.steps[1].elementId == IndexedId("device-", device) && s.steps[1].caption == deviceName + " 선택"
  {
    ActionSequence(
      [ ClickStep("option-" + option, option + " 선택", 400, 600),
        ClickStep(IndexedId("device-", device), deviceName + " 선택", 300, 800),
        ClickStep("apply-device", "기기변경 개통 처리", 300, 1000) ],
      [ SelectDeviceOption(option), SelectDevice(device), OpenDevice ])
  }

  /** `buildDeviceChangeSequence`: pick the discount option, pick the device, open. */
  function BuildDeviceChangeSequence(keywords: seq<string>, data: ReferenceData): (s: ActionSequence)
    requires Usable(data)
    ensures WellFormed(DeviceChange, s)
    ensures s.dispatches[0] == SelectDeviceOption(ResolveDeviceOption(keywords, data.deviceOptions))
    ensures s.dispatches[0].deviceOption in data.deviceOptions
    ensures s.steps[0].elementId == "option-" + s.dispatches[0].deviceOption
    ensures s.dispatches[1] == SelectDevice(DeviceChoice(keywords, data.devices))
    ensures 0 <= s.dispatches[1].deviceIndex < |data.devices|
    ensures s.steps[1].elementId == IndexedId("device-", s.dispatches[1].deviceIndex)
  {
    var device := DeviceChoice(keywords, data.devices);
    var option := ResolveDeviceOption(keywords, data.deviceOptions);
    var s := DeviceChangeSteps(option, device, data.devices[device].name);
    assert s.dispatches[0] == s.dispatches[..2][0] && s.dispatches[1] == s.dispatches[..2][1];
    s
  }

  function LostStolenSteps(option: string): (s: ActionSequence)
    ensures WellFormed(LostStolen, s)
    ensures s.dispatches[0] == SelectLostOption(option)
    ensures s.steps[0].elementId == "option-" + option && s.steps[0].caption == option + " 선택"
  {
    ActionSequence(
      [ ClickStep("option-" + option, option + " 선택", 400, 800),
        ClickStep("apply-suspend", "긴급 정지 처리", 300, 1000) ],
      [ SelectLostOption(option), Suspend ])
  }

  /** `buildLostStolenSequence`: pick loss or theft, suspend. */
  function BuildLostStolenSequence(keywords: seq<string>, data: ReferenceData): (s: ActionSequence)
    requires Usable(data)
    ensures WellFormed(LostStolen, s)
    ensures s.dispatches[0] == SelectLostOption(ResolveLostStolenOption(keywords, data.lostOptions))
    ensures s.dispatches[0].lostOption == data.lostOptions[0].caption || s.dispatches[0].lostOption == data.lostOptions[1].caption
    ensures s.steps[0].elementId == "option-" + s.dispatches[0].lostOption
  {
    LostStolenSteps(ResolveLostStolenOption(keywords, data.lostOptions))
  }

  function CancellationSteps(reason: string): (s: ActionSequence)
    ensures WellFormed(Cancellation, s)
    ensures s.dispatches[0] == SelectCancelReason(reason)
    ensures s.steps[0].action == Select && s.steps[0].value == Some(TextValue(reason))
    ensures s.steps[0].elementId == "reason-" + reason && s.steps[0].caption == "\"" + reason + "\" 사유 선택"
  {
    ActionSequence(
      [ Step("reason-" + reason, Select, Some(TextValue(reason)), "\"" + reason + "\" 사유 선택", 400, 600),
        ClickStep("apply-cancel", "해지 처리 실행", 300, 1000) ],
      [ SelectCancelReason(reason), ProcessCancel ])
  }

  /** `buildCancellationSequence`: choose the reason in the drop-down, process. */
  function BuildCancellationSequence(keywords: seq<string>, data: ReferenceData): (s: ActionSequence)
    requires Usable(data)
    ensures WellFormed(Cancellation, s)
    ensures s.dispatches[0] == SelectCancelReason(ResolveCancellationReason(keywords, data.reasons))
    ensures s.dispatches[0].reason in data.reasons
    ensures s.steps[0].action == Select && s.steps[0].value == Some(TextValue(s.dispatches[0].reason))
    ensures s.steps[0].elementId == "reason-" + s.dispatches[0].reason
  {
    ReasonIsListed(keywords, data.reasons);
    CancellationSteps(ResolveCancellationReason(keywords, data.reasons))
  }

  function DataAddonSteps(addon: nat, addonName: string): (s: ActionSequence)
    ensures WellFormed(DataAddon, s)
    ensures s.dispatches[0] == SelectAddon(addon)
    ensures s.steps[0].elementId == IndexedId("addon-", addon) && s.steps[0].caption == addonName + " 선택"
  {
    ActionSequence(
      [ ClickStep(IndexedId("addon-", addon), addonName + " 선택", 400, 800),
        ClickStep("apply-addon", "부가서비스 추가", 300, 800) ],
      [ SelectAddon(addon), AddAddon ])
  }

  /** `buildDataAddonSequence`: pick the add-on, add it. */
  function BuildDataAddonSequence(keywords: seq<string>, data: ReferenceData): (s: ActionSequence)
    requires Usable(data)
    ensures WellFormed(DataAddon, s)
    ensures s.dispatches[0] == SelectAddon(AddonChoice(keywords, data.addons))
    ensures 0 <= s.dispatches[0].addonIndex < |data.addons|
    ensures s.steps[0].elementId == IndexedId("addon-", s.dispatches[0].addonIndex)
  {
    var addon := AddonChoice(keywords, data.addons);
    DataAddonSteps(addon, data.addons[addon].name)
  }

  /**
   * `getActionSequence`: the sequence of the given screen, with missing keywords
   * read as none. Every screen has one, so the `null` branch is never taken.
   */
  function GetActionSequence(screen: Screen, keywords: Option<seq<string>>, data: ReferenceData): (r: Option<ActionSequence>)
    requires Usable(data)
    ensures r.Some? && WellFormed(screen, r.value)
  {
    var kws := keywords.GetOr([]);
    match screen
    case Roaming => Some(BuildRoamingSequence(kws, data))
    case PlanChange => Some(BuildPlanChangeSequence(kws, data))
    case DeviceChange => Some(BuildDeviceChangeSequence(kws, data))
    case LostStolen => Some(BuildLostStolenSequence(kws, data))
    case Cancellation => Some(BuildCancellationSequence(kws, data))
    case DataAddon => Some(BuildDataAddonSequence(kws, data))
  }

  /** Missing keywords behave as an empty keyword list. */
  lemma MissingKeywordsAreEmpty(screen: Screen, data: ReferenceData)
    requires Usable(data)
    ensures GetActionSequence(screen, None, data) == GetActionSequence(screen, Some([]), data)
  {
  }
}
