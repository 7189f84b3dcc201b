/**
 * The CRM document's reducer and the store that holds it: the initial document,
 * one pure transition per command, the status each screen moves to when its
 * selection is applied, and the store with its highlighted element and reset.
 */
module CrmReducer {
  import opened Wrappers
  import opened CrmTypes
  import opened CrmData

  /** `DATA_ADDON_DATA.addons.map((a) => ({ name, active }))` */
  function Entries(addons: seq<Addon>): (es: seq<AddonEntry>)
    ensures |es| == |addons|
    ensures forall i :: 0 <= i < |addons| ==> es[i] == AddonEntry(addons[i].name, addons[i].active)
  {
    seq(|addons|, i requires 0 <= i < |addons| => AddonEntry(addons[i].name, addons[i].active))
  }

  /** `initialState`: nothing selected, every status at its starting value. */
  function InitialState(): CrmState {
    CrmState(
      RoamingState("미신청", None, None),
      PlanChangeState(None, "미변경"),
      DeviceChangeState(None, None, "미변경"),
      LostStolenState("정상", None),
      CancellationState(None, "미처리"),
      DataAddonState(Entries(Addons), None))
  }

  // ---------------------------------------------------------------------------
  // Statuses
  // ---------------------------------------------------------------------------

  /** The status field of a screen's sub-state; the data-addon screen has none. */
  function Status(st: CrmState, s: Screen): Option<string> {
    match s
    case Roaming => Some(st.roaming.currentStatus)
    case PlanChange => Some(st.planChange.changeStatus)
    case DeviceChange => Some(st.deviceChange.changeStatus)
    case LostStolen => Some(st.lostStolen.deviceStatus)
    case Cancellation => Some(st.cancellation.cancelStatus)
    case DataAddon => None
  }

  /** The status a screen starts in. */
  function InitialStatus(s: Screen): Option<string> {
    match s
    case Roaming => Some("미신청")
    case PlanChange => Some("미변경")
    case DeviceChange => Some("미변경")
    case LostStolen => Some("정상")
    case Cancellation => Some("미처리")
    case DataAddon => None
  }

  /** The status a screen's commit command writes. */
  function TerminalStatus(s: Screen): Option<string> {
    match s
    case Roaming => Some("신청완료")
    case PlanChange => Some("변경완료")
    case DeviceChange => Some("개통완료")
    case LostStolen => Some("분실정지")
    case Cancellation => Some("해지완료")
    case DataAddon => None
  }

  /** The initial document is in every screen's initial status, and no terminal status is an initial one. */
  lemma StatusesOfInitialState(s: Screen)
    ensures Status(InitialState(), s) == InitialStatus(s)
    ensures s != DataAddon ==> TerminalStatus(s) != InitialStatus(s)
  {
  }

  /** Every sub-state of a and b other than that of screen s is the same. */
  predicate SameExcept(a: CrmState, b: CrmState, s: Screen) {
    && (s != Roaming ==> a.roaming == b.roaming)
    && (s != PlanChange ==> a.planChange == b.planChange)
    && (s != DeviceChange ==> a.deviceChange == b.deviceChange)
    && (s != LostStolen ==> a.lostStolen == b.lostStolen)
    && (s != Cancellation ==> a.cancellation == b.cancellation)
    && (s != DataAddon ==> a.dataAddon == b.dataAddon)
  }

  /** The five status fields agree, so every screen's status does (`SameStatusesAgree`). */
  predicate SameStatuses(a: CrmState, b: CrmState) {
    && a.roaming.currentStatus == b.roaming.currentStatus
    && a.planChange.changeStatus == b.planChange.changeStatus
    && a.deviceChange.changeStatus == b.deviceChange.changeStatus
    && a.lostStolen.deviceStatus == b.lostStolen.deviceStatus
    && a.cancellation.cancelStatus == b.cancellation.cancelStatus
  }

  lemma SameStatusesAgree(a: CrmState, b: CrmState)
    requires SameStatuses(a, b)
    ensures forall s :: Status(a, s) == Status(b, s)
  {
  }

  lemma SameExceptStatus(a: CrmState, b: CrmState, s: Screen, t: Screen)
    requires SameExcept(a, b, s) && t != s
    ensures Status(a, t) == Status(b, t)
  {
  }

  // ---------------------------------------------------------------------------
  // The reducer
  // ---------------------------------------------------------------------------

  /** The `DATA_ADD_ADDON` map: the entry at idx is switched on, the rest are kept. */
  function Activate(addons: seq<AddonEntry>, idx: int): (r: seq<AddonEntry>)
    ensures |r| == |addons|
    ensures forall i :: 0 <= i < |addons| ==> r[i].name == addons[i].name
    ensures forall i :: 0 <= i < |addons| ==> r[i].active == (i == idx || addons[i].active)
  {
    seq(|addons|, i requires 0 <= i < |addons| => if i == idx then addons[i].(active := true) else addons[i])
  }

  /**
   * `crmReducer`. RESET yields the initial document whatever screen it names;
   * every other command writes only the sub-state of its screen; a selection
   * leaves every status alone; a commit writes its screen's terminal status
   * whether or not anything was selected.
   */
  function Reduce(state: CrmState, action: CrmAction): (r: CrmState)
    ensures action.Reset? ==> r == InitialState()
    ensures !action.Reset? ==> SameExcept(state, r, Target(action))
    ensures !action.Reset? && !IsCommit(action) ==> SameStatuses(state, r)
    ensures IsCommit(action) ==> Status(r, Target(action)) == TerminalStatus(Target(action))
  {
    match action
    case SelectRegion(region) => state.(roaming := state.roaming.(selectedRegion := Some(region)))
    case SelectProduct(index) => state.(roaming := state.roaming.(selectedProduct := Some(index)))
    case ApplyRoaming => state.(roaming := state.roaming.(currentStatus := "신청완료"))
    case SelectPlan(index) => state.(planChange := state.planChange.(selectedPlan := Some(index)))
    case ChangePlan => state.(planChange := state.planChange.(changeStatus := "변경완료"))
    case SelectDeviceOption(option) => state.(deviceChange := state.deviceChange.(selectedOption := Some(option)))
    case SelectDevice(index) => state.(deviceChange := state.deviceChange.(selectedDevice := Some(index)))
    case OpenDevice => state.(deviceChange := state.deviceChange.(changeStatus := "개통완료"))
    case SelectLostOption(option) => state.(lostStolen := state.lostStolen.(selectedOption := Some(option)))
    case Suspend => state.(lostStolen := state.lostStolen.(deviceStatus := "분실정지"))
    case SelectCancelReason(reason) => state.(cancellation := state.cancellation.(selectedReason := Some(reason)))
    case ProcessCancel => state.(cancellation := state.cancellation.(cancelStatus := "해지완료"))
    case SelectAddon(index) => state.(dataAddon := state.dataAddon.(selectedAddon := Some(index)))
    case AddAddon =>
      if state.dataAddon.selectedAddon.None? then state
      else
        var idx := state.dataAddon.selectedAddon.value;
        state.(dataAddon := DataAddonState(Activate(state.dataAddon.addons, idx), None))
    case Reset(_) => InitialState()
  }

  /** The commands applied one after another, as `useReducer` does with successive dispatches. */
  function ReduceAll(state: CrmState, actions: seq<CrmAction>): CrmState
    decreases |actions|
  {
    if |actions| == 0 then state
    else ReduceAll(Reduce(state, actions[0]), actions[1..])
  }

  // ---------------------------------------------------------------------------
  // Properties of single commands
  // ---------------------------------------------------------------------------

  /** Each selection sets exactly one field of its screen's sub-state to the command's value. */
  lemma SelectionSetsOneField(state: CrmState, action: CrmAction)
    ensures var r := Reduce(state, action);
      && (action.SelectRegion? ==> r.roaming == state.roaming.(selectedRegion := Some(action.region)))
      && (action.SelectProduct? ==> r.roaming == state.roaming.(selectedProduct := Some(action.productIndex)))
      && (action.SelectPlan? ==> r.planChange == state.planChange.(selectedPlan := Some(action.planIndex)))
      && (action.SelectDeviceOption? ==>
            r.deviceChange == state.deviceChange.(selectedOption := Some(action.deviceOption)))
      && (action.SelectDevice? ==> r.deviceChange == state.deviceChange.(selectedDevice := Some(action.deviceIndex)))
      && (action.SelectLostOption? ==> r.lostStolen == state.lostStolen.(selectedOption := Some(action.lostOption)))
      && (action.SelectCancelReason? ==>
            r.cancellation == state.cancellation.(selectedReason := Some(action.reason)))
      && (action.SelectAddon? ==> r.dataAddon == state.dataAddon.(selectedAddon := Some(action.addonIndex)))
  {
  }

  /** The five status commits change their status field and nothing else of their sub-state. */
  lemma CommitSetsOnlyStatus(state: CrmState, action: CrmAction)
    ensures var r := Reduce(state, action);
      && (action.ApplyRoaming? ==> r.roaming == state.roaming.(currentStatus := "신청완료"))
      && (action.ChangePlan? ==> r.planChange == state.planChange.(changeStatus := "변경완료"))
      && (action.OpenDevice? ==> r.deviceChange == state.deviceChange.(changeStatus := "개통완료"))
      && (action.Suspend? ==> r.lostStolen == state.lostStolen.(deviceStatus := "분실정지"))
      && (action.ProcessCancel? ==> r.cancellation == state.cancellation.(cancelStatus := "해지완료"))
  {
  }

  /** Committing twice is committing once (a second DATA_ADD_ADDON finds no selection). */
  lemma CommitIdempotent(state: CrmState, action: CrmAction)
    requires IsCommit(action)
    ensures Reduce(Reduce(state, action), action) == Reduce(state, action)
  {
  }

  /** DATA_ADD_ADDON with nothing selected returns the document unchanged. */
  lemma AddAddonWithoutSelection(state: CrmState)
    requires state.dataAddon.selectedAddon == None
    ensures Reduce(state, AddAddon) == state
  {
  }

  /**
   * DATA_ADD_ADDON with entry idx selected switches on that entry only (none
   * when idx is out of range), keeps the list's length and names, and clears
   * the selection.
   */
  lemma AddAddonActivates(state: CrmState, idx: int)
    requires state.dataAddon.selectedAddon == Some(idx)
    ensures var r := Reduce(state, AddAddon).dataAddon;
      && r.selectedAddon == None
      && |r.addons| == |state.dataAddon.addons|
      && (forall i :: 0 <= i < |r.addons| ==> r.addons[i].name == state.dataAddon.addons[i].name)
      && (forall i :: 0 <= i < |r.addons| && i != idx ==> r.addons[i] == state.dataAddon.addons[i])
      && (0 <= idx < |r.addons| ==> r.addons[idx].active)
  {
    var r := Reduce(state, AddAddon).dataAddon;
    forall i | 0 <= i < |r.addons| && i != idx ensures r.addons[i] == state.dataAddon.addons[i] {
      assert r.addons[i].name == state.dataAddon.addons[i].name;
      assert r.addons[i].active == state.dataAddon.addons[i].active;
    }
  }

  /** RESET returns the initial document from any document. */
  lemma ResetIsInitial(state: CrmState, s: Screen)
    ensures Reduce(state, Reset(s)) == InitialState()
    ensures forall t :: Status(Reduce(state, Reset(s)), t) == InitialStatus(t)
  {
    forall t ensures Status(Reduce(state, Reset(s)), t) == InitialStatus(t) {
      StatusesOfInitialState(t);
    }
  }

  /**
   * No command but RESET writes a status back to its initial value: if a
   * screen is in its initial status after the command, it was before.
   */
  lemma NoRewindWithoutReset(state: CrmState, action: CrmAction, s: Screen)
    requires !action.Reset?
    ensures Status(Reduce(state, action), s) == InitialStatus(s) ==> Status(state, s) == InitialStatus(s)
  {
    var r := Reduce(state, action);
    if IsCommit(action) {
      if Target(action) == s {
        StatusesOfInitialState(s);
      } else {
        SameExceptStatus(state, r, Target(action), s);
      }
    }
  }

  // ---------------------------------------------------------------------------
  // Properties of runs of commands
  // ---------------------------------------------------------------------------

  /** Without a RESET, a screen that reached its terminal status keeps it. */
  lemma {:induction false} TerminalIsSticky(state: CrmState, actions: seq<CrmAction>, s: Screen)
    requires forall i :: 0 <= i < |actions| ==> !actions[i].Reset?
    requires Status(state, s) == TerminalStatus(s)
    ensures Status(ReduceAll(state, actions), s) == TerminalStatus(s)
    decreases |actions|
  {
    if |actions| > 0 {
      var a := actions[0];
      var next := Reduce(state, a);
      if IsCommit(a) && Target(a) != s {
        SameExceptStatus(state, next, Target(a), s);
      }
      assert forall i :: 0 <= i < |actions| - 1 ==> actions[1..][i] == actions[i + 1];
      TerminalIsSticky(next, actions[1..], s);
    }
  }

  /** Commands that all aim at screen s, none a RESET, leave every other sub-state alone. */
  lemma {:induction false} RunStaysOnScreen(state: CrmState, actions: seq<CrmAction>, s: Screen)
    requires forall i :: 0 <= i < |actions| ==> !actions[i].Reset? && Target(actions[i]) == s
    ensures SameExcept(state, ReduceAll(state, actions), s)
    decreases |actions|
  {
    if |actions| > 0 {
      assert forall i :: 0 <= i < |actions| - 1 ==> actions[1..][i] == actions[i + 1];
      RunStaysOnScreen(Reduce(state, actions[0]), actions[1..], s);
    }
  }

  /** A run ending in a command: the run of its prefix, then that command. */
  lemma {:induction false} ReduceAllSnoc(state: CrmState, actions: seq<CrmAction>, a: CrmAction)
    ensures ReduceAll(state, actions + [a]) == Reduce(ReduceAll(state, actions), a)
    decreases |actions|
  {
    if |actions| > 0 {
      assert (actions + [a])[1..] == actions[1..] + [a];
      ReduceAllSnoc(Reduce(state, actions[0]), actions[1..], a);
    }
  }

  // ---------------------------------------------------------------------------
  // The store of `useCrmState`
  // ---------------------------------------------------------------------------

  /** `useCrmState`: the reducer's document and the highlighted element id. */
  class CrmStore {
    var state: CrmState
    var highlightedElement: Option<string>

    constructor()
      ensures state == InitialState() && highlightedElement == None
    {
      state := InitialState();
      highlightedElement := None;
    }

    /** `dispatch`: one reducer step; the highlight is not touched. */
    method Dispatch(action: CrmAction)
      modifies this
      ensures state == Reduce(old(state), action)
      ensures highlightedElement == old(highlightedElement)
    {
      state := Reduce(state, action);
    }

    /** `setHighlightedElement` */
    method SetHighlightedElement(id: Option<string>)
      modifies this
      ensures highlightedElement == id
      ensures state == old(state)
    {
      highlightedElement := id;
    }

    /** `resetState`: a RESET dispatch (naming the roaming screen) and the highlight cleared. */
    method ResetState()
      modifies this
      ensures state == InitialState()
      ensures highlightedElement == None
    {
      Dispatch(Reset(Roaming));
      SetHighlightedElement(None);
    }
  }
}
