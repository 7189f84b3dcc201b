/**
 * The shapes shared by the CRM pipeline: the six screens, the CRM document with
 * one sub-state per screen, the reducer's commands, and the steps of an action
 * sequence.
 */
module CrmTypes {
  import opened Wrappers

  /** `CrmScreenType` */
  datatype Screen = Roaming | LostStolen | Cancellation | DeviceChange | PlanChange | DataAddon

  datatype RoamingState = RoamingState(
    currentStatus: string,
    selectedRegion: Option<string>,
    selectedProduct: Option<int>)

  datatype PlanChangeState = PlanChangeState(
    selectedPlan: Option<int>,
    changeStatus: string)

  datatype DeviceChangeState = DeviceChangeState(
    selectedOption: Option<string>,
    selectedDevice: Option<int>,
    changeStatus: string)

  datatype LostStolenState = LostStolenState(
    deviceStatus: string,
    selectedOption: Option<string>)

  datatype CancellationState = CancellationState(
    selectedReason: Option<string>,
    cancelStatus: string)

  datatype AddonEntry = AddonEntry(name: string, active: bool)

  datatype DataAddonState = DataAddonState(
    addons: seq<AddonEntry>,
    selectedAddon: Option<int>)

  /** `CrmState`: the CRM document. */
  datatype CrmState = CrmState(
    roaming: RoamingState,
    planChange: PlanChangeState,
    deviceChange: DeviceChangeState,
    lostStolen: LostStolenState,
    cancellation: CancellationState,
    dataAddon: DataAddonState)

  /**
   * `CrmAction`, one constructor per `type` tag:
   * ROAMING_SELECT_REGION, ROAMING_SELECT_PRODUCT, ROAMING_APPLY, PLAN_SELECT,
   * PLAN_CHANGE, DEVICE_SELECT_OPTION, DEVICE_SELECT, DEVICE_OPEN,
   * LOST_SELECT_OPTION, LOST_SUSPEND, CANCEL_SELECT_REASON, CANCEL_PROCESS,
   * DATA_SELECT_ADDON, DATA_ADD_ADDON, RESET.
   */
  datatype CrmAction =
    | SelectRegion(region: string)
    | SelectProduct(productIndex: int)
    | ApplyRoaming
    | SelectPlan(planIndex: int)
    | ChangePlan
    | SelectDeviceOption(deviceOption: string)
    | SelectDevice(deviceIndex: int)
    | OpenDevice
    | SelectLostOption(lostOption: string)
    | Suspend
    | SelectCancelReason(reason: string)
    | ProcessCancel
    | SelectAddon(addonIndex: int)
    | AddAddon
    | Reset(screen: Screen)

  /** `CrmActionStep.action` */
  datatype StepKind = Highlight | Click | Select

  /** `CrmActionStep.value` (`string | number`) */
  datatype StepValue = TextValue(text: string) | NumberValue(number: int)

  /** `CrmActionStep`: delays are milliseconds. */
  datatype Step = Step(
    elementId: string,
    action: StepKind,
    value: Option<StepValue>,
    caption: string,    // `label` (a reserved word in Dafny)
    delayBefore: nat,
    delayAfter: nat)

  /** `ActionSequence`: steps[i]'s dispatch is dispatches[i]. */
  datatype ActionSequence = ActionSequence(steps: seq<Step>, dispatches: seq<CrmAction>)

  /**
   * The screen whose sub-state an action writes. For RESET it is only the
   * `screenType` the action carries: RESET itself restores every screen.
   */
  function Target(a: CrmAction): Screen {
    match a
    case SelectRegion(_) => Roaming
    case SelectProduct(_) => Roaming
    case ApplyRoaming => Roaming
    case SelectPlan(_) => PlanChange
    case ChangePlan => PlanChange
    case SelectDeviceOption(_) => DeviceChange
    case SelectDevice(_) => DeviceChange
    case OpenDevice => DeviceChange
    case SelectLostOption(_) => LostStolen
    case Suspend => LostStolen
    case SelectCancelReason(_) => Cancellation
    case ProcessCancel => Cancellation
    case SelectAddon(_) => DataAddon
    case AddAddon => DataAddon
    case Reset(s) => s
  }

  /** The action that applies a screen's selection (its "apply" button). */
  function CommitOf(s: Screen): (a: CrmAction)
    ensures Target(a) == s
  {
    match s
    case Roaming => ApplyRoaming
    case PlanChange => ChangePlan
    case DeviceChange => OpenDevice
    case LostStolen => Suspend
    case Cancellation => ProcessCancel
    case DataAddon => AddAddon
  }

  predicate IsCommit(a: CrmAction) {
    a.ApplyRoaming? || a.ChangePlan? || a.OpenDevice? || a.Suspend? || a.ProcessCancel? || a.AddAddon?
  }

  /** Every screen has its own commit action, and the commit actions are exactly these six. */
  lemma CommitOfIsCommit(s: Screen, a: CrmAction)
    ensures IsCommit(CommitOf(s))
    ensures IsCommit(a) <==> a == CommitOf(Target(a))
    ensures CommitOf(s) == CommitOf(Target(a)) ==> s == Target(a)
  {
  }
}
