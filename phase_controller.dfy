/**
 * The advanced console's conversation controller: a spoken or typed query is
 * searched, the answer is spoken, and while the controller waits for the
 * customer's reply a "yes" runs the CRM screen picked from the answer's
 * keywords. The screen and keywords are snapshotted when the results arrive,
 * and the run always uses that snapshot.
 *
 * The search, the suggestion generator and text-to-speech are hooks outside
 * this model: what the controller asks of them is recorded as effects.
 */
module ConversationPhase {
  import opened Wrappers
  import opened Text
  import opened CrmTypes
  import opened CrmData
  import opened ScreenMapper
  import opened ConfirmDetector
  import opened CrmReducer
  import opened ActionSequences
  import opened SequenceEffects
  import opened AutoAction

  datatype Phase = Idle | Searching | Responding | AwaitingConfirm | Executing | Done

  const NoReplyMessage := "알겠습니다. 다른 문의사항이 있으시면 말씀해주세요."

  /** A call into the search or suggestion hooks. */
  datatype Effect =
    | TriggerSearch(text: string)
    | QueryChange(text: string)
    | Speak(text: string)
    | Generate(query: string, contexts: seq<string>, keywords: seq<string>, screen: Screen)

  datatype ControllerView = ControllerView(
    phase: Phase,
    autoSelect: bool,
    pendingScreen: Screen,
    pendingKeywords: seq<string>,
    crmScreen: Screen,
    query: string,
    effects: seq<Effect>)

  /** `results.slice(0, 3).map(r => r.content)`. */
  function Contexts(results: seq<string>): (contexts: seq<string>)
    ensures |contexts| == if |results| < 3 then |results| else 3
    ensures IsSeqPrefix(contexts, results)
  {
    if |results| < 3 then results else results[..3]
  }

  predicate IsSeqPrefix(p: seq<string>, s: seq<string>) {
    |p| <= |s| && s[..|p|] == p
  }

  /** The executing-to-done effect: a run is over once the runner stopped after completing a step. */
  function PhaseAfterRunnerUpdate(phase: Phase, isRunning: bool, completed: seq<string>): (next: Phase)
    ensures next == Done <==> phase == Done || (phase == Executing && !isRunning && |completed| > 0)
    ensures next != phase ==> phase == Executing
  {
    if phase == Executing && !isRunning && |completed| > 0 then Done else phase
  }

  /** A new query: searched, with the next results to be handled automatically. */
  function NewQuery(v: ControllerView, text: string): ControllerView {
    v.(query := text, effects := v.effects + [TriggerSearch(text)], autoSelect := true, phase := Searching)
  }

  /**
   * A search typed by hand: the query and the search box always change; only
   * non-blank text arms the automatic flow and starts searching.
   */
  function ManualSearch(v: ControllerView, value: string): (w: ControllerView)
    ensures w.query == value && w.effects == v.effects + [QueryChange(value)]
    ensures w.autoSelect == (Trim(value) != [] || v.autoSelect)
    ensures w.phase == if Trim(value) == [] then v.phase else Searching
    ensures w.crmScreen == v.crmScreen && w.pendingScreen == v.pendingScreen && w.pendingKeywords == v.pendingKeywords
  {
    var typed := v.(query := value, effects := v.effects + [QueryChange(value)]);
    if Trim(value) != [] then typed.(autoSelect := true, phase := Searching) else typed
  }

  /** The results handled: the screen the keywords determine and the keywords snapshotted, responding, a suggestion requested. */
  function Snapshotted(v: ControllerView, contexts: seq<string>, keywords: seq<string>): ControllerView {
    var screen := DetermineCrmScreen(keywords);
    v.(autoSelect := false, crmScreen := screen, pendingScreen := screen, pendingKeywords := keywords,
       phase := Responding, effects := v.effects + [Generate(v.query, contexts, keywords, screen)])
  }

  /**
   * The reply to a spoken suggestion, from controller state v and runner state
   * r to v' and r': a yes executes the snapshot (the runner starts on the
   * snapshot screen and keywords), a no ends the conversation with the
   * acknowledgement, anything else is a new query; only a yes touches the runner.
   */
  predicate Replied(v: ControllerView, v': ControllerView, r: RunnerView, r': RunnerView,
                    pending: seq<Timer>, pending': seq<Timer>, result: Confirm, text: string)
  {
    && (result == Yes ==>
        && v' == v.(phase := Executing)
        && pending' == RunTimers(v.pendingScreen, v.pendingKeywords)
        && r' == r.(isRunning := true, stepIndex := 0, completed := [], highlight := None))
    && (result != Yes ==> r' == r && pending' == pending)
    && (result == No ==> v' == v.(phase := Done, effects := v.effects + [Speak(NoReplyMessage)]))
    && (result == Unknown ==> v' == NewQuery(v, text))
  }

  /** The timers a run of the snapshot queues, on the demo's reference data. */
  function RunTimers(screen: Screen, keywords: seq<string>): seq<Timer> {
    DemoUsable();
    Schedule(GetActionSequence(screen, Some(keywords), Demo).value)
  }

  /**
   * A well-formed sequence started and played to the end: the runner is idle
   * with every step completed, the sequence's screen is committed and the other
   * screens are as they were, so the next runner update ends the conversation.
   */
  lemma StartedRunEndsDone(v: RunnerView, screen: Screen, s: ActionSequence)
    requires WellFormed(screen, s)
    ensures var w := FireAll(v.(isRunning := true, stepIndex := 0, completed := [], highlight := None), Schedule(s));
      && !w.isRunning && w.completed == Captions(s.steps) && |w.completed| >= 2
      && SameExcept(v.crm, w.crm, screen)
      && Status(w.crm, screen) == TerminalStatus(screen)
      && PhaseAfterRunnerUpdate(Executing, w.isRunning, w.completed) == Done
  {
    var start := v.(isRunning := true, stepIndex := 0, completed := [], highlight := None);
    RunToEnd(start, s);
    SequenceCommitsItsScreen(screen, s, v.crm);
    assert [] + Captions(s.steps) == Captions(s.steps);
  }

  /** A confirmed execution of any snapshot, played to the end, commits the snapshot's screen and ends done. */
  lemma ConfirmedRunEndsDone(v: RunnerView, screen: Screen, keywords: seq<string>)
    ensures var s := GetActionSequence(screen, Some(keywords), Demo).value;
      var w := FireAll(v.(isRunning := true, stepIndex := 0, completed := [], highlight := None), Schedule(s));
      && Status(w.crm, screen) == TerminalStatus(screen)
      && SameExcept(v.crm, w.crm, screen)
      && PhaseAfterRunnerUpdate(Executing, w.isRunning, w.completed) == Done
  {
    DemoUsable();
    StartedRunEndsDone(v, screen, GetActionSequence(screen, Some(keywords), Demo).value);
  }

  /** While the run is going, or before it has completed a step, a runner update keeps the phase. */
  lemma RunnerUpdateWaitsForTheRun(isRunning: bool, completed: seq<string>)
    requires isRunning || completed == []
    ensures PhaseAfterRunnerUpdate(Executing, isRunning, completed) == Executing
  {
  }

  /** What `handleUtteranceComplete` does with an utterance. */
  datatype UtteranceBranch = Execute | Decline | Requery

  /** The branch taken for an utterance when the handler reads the phase `phase`. */
  function BranchOf(phase: Phase, text: string): (b: UtteranceBranch)
    ensures b == Execute <==> phase == AwaitingConfirm && DetectConfirm(text) == Yes
    ensures b == Decline <==> phase == AwaitingConfirm && DetectConfirm(text) == No
  {
    if phase != AwaitingConfirm then Requery
    else match DetectConfirm(text)
      case Yes => Execute
      case No => Decline
      case Unknown => Requery
  }

  /**
   * The transcription handler keeps the `handleUtteranceComplete` of the render
   * in which the microphone was started, normally an idle one. Branching on that
   * phase, a spoken "네 해주세요" while the controller is awaiting confirmation is
   * searched as a new query; branching on the current phase, it runs the snapshot.
   */
  lemma SpokenYesIsSearched()
    ensures BranchOf(Idle, "네 해주세요") == Requery
    ensures BranchOf(AwaitingConfirm, "네 해주세요") == Execute
  {
    PleaseDoItIsYes();
  }

  /** With an idle phase captured, no spoken reply ever executes or declines the snapshot. */
  lemma CapturedIdleAlwaysRequeries(text: string)
    ensures BranchOf(Idle, text) == Requery
  {
  }

  class ConversationController {
    var phase: Phase
    /** `autoSelectRef`: handle the next results automatically. */
    var autoSelect: bool
    /** `pendingScreenRef` and `pendingKeywordsRef`: the snapshot a confirmation runs. */
    var pendingScreen: Screen
    var pendingKeywords: seq<string>
    /** `crmScreenType`: the screen the CRM panel shows. */
    var crmScreenType: Screen
    /** The search hook's `query`. */
    var query: string
    var effects: seq<Effect>
    const runner: AutoActionRunner

    function View(): ControllerView
      reads this
    {
      ControllerView(phase, autoSelect, pendingScreen, pendingKeywords, crmScreenType, query, effects)
    }

    /** The snapshot screen is always the one the snapshot keywords determine. */
    predicate Valid()
      reads this
    {
      pendingScreen == DetermineCrmScreen(pendingKeywords)
    }

    constructor(runner: AutoActionRunner)
      ensures this.runner == runner
      ensures View() == ControllerView(Idle, false, DataAddon, [], DataAddon, "", [])
      ensures Valid()
    {
      this.runner := runner;
      phase := Idle;
      autoSelect := false;
      pendingScreen := DataAddon;
      pendingKeywords := [];
      crmScreenType := DataAddon;
      query := "";
      effects := [];
      EmptyIsDataAddon();
    }

    /** `executeCrmAction`: executing, and the runner starts on the snapshot, never on live keywords. */
    method ExecuteCrmAction()
      modifies this, runner, runner.store
      ensures View() == old(View()).(phase := Executing)
      ensures runner.pending == RunTimers(pendingScreen, pendingKeywords)
      ensures runner.View() == old(runner.View()).(isRunning := true, stepIndex := 0, completed := [], highlight := None)
      ensures old(Valid()) ==> Valid()
      ensures old(Valid()) ==> runner.pending == RunTimers(DetermineCrmScreen(pendingKeywords), pendingKeywords)
    {
      phase := Executing;
      runner.Run(pendingScreen, Some(pendingKeywords));
    }

    /**
     * `handleUtteranceComplete` branching on the current phase: while awaiting
     * confirmation a yes executes and a no ends the conversation with a spoken
     * acknowledgement; anything else, and every utterance in another phase, is
     * a new query.
     */
    method OnUtterance(text: string)
      modifies this, runner, runner.store
      ensures old(phase) == AwaitingConfirm ==> Replied(old(View()), View(), old(runner.View()), runner.View(), old(runner.pending), runner.pending, DetectConfirm(text), text)
      ensures old(phase) != AwaitingConfirm ==>
        && View() == NewQuery(old(View()), text)
        && runner.View() == old(runner.View()) && runner.pending == old(runner.pending)
      ensures BranchOf(old(phase), text) == Execute ==> phase == Executing
      ensures old(Valid()) ==> Valid()
    {
      OnCapturedUtterance(phase, text);
    }

    /**
     * The utterance handler the transcription hook actually calls: the
     * `handleUtteranceComplete` of the render in which `start` ran, which
     * branches on that render's phase `captured` whatever the current phase is.
     */
    method OnCapturedUtterance(captured: Phase, text: string)
      modifies this, runner, runner.store
      ensures captured == AwaitingConfirm ==> Replied(old(View()), View(), old(runner.View()), runner.View(), old(runner.pending), runner.pending, DetectConfirm(text), text)
      ensures captured != AwaitingConfirm ==>
        && View() == NewQuery(old(View()), text)
        && runner.View() == old(runner.View()) && runner.pending == old(runner.pending)
      ensures BranchOf(captured, text) == Execute ==> phase == Executing
      ensures BranchOf(captured, text) == Requery ==> View() == NewQuery(old(View()), text)
      ensures old(Valid()) ==> Valid()
    {
      if captured == AwaitingConfirm {
        var result := DetectConfirm(text);
        OnReply(result, text);
      } else {
        StartQuery(text);
      }
    }

    /** The awaiting-confirm branch of `handleUtteranceComplete`, given what `detectConfirm` made of the reply. */
    method OnReply(result: Confirm, text: string)
      modifies this, runner, runner.store
      ensures Replied(old(View()), View(), old(runner.View()), runner.View(), old(runner.pending), runner.pending, result, text)
      ensures old(Valid()) ==> Valid()
    {
      if result == Yes {
        ExecuteCrmAction();
      } else if result == No {
        phase := Done;
        effects := effects + [Speak(NoReplyMessage)];
      } else {
        StartQuery(text);
      }
    }

    /** `setQuery(text)`, `triggerSearch(text)`, the auto-select flag, searching. */
    method StartQuery(text: string)
      modifies this
      ensures View() == NewQuery(old(View()), text)
      ensures old(Valid()) ==> Valid()
    {
      query := text;
      effects := effects + [TriggerSearch(text)];
      autoSelect := true;
      phase := Searching;
    }

    /**
     * The results effect: only with the auto-select flag set and at least one
     * result, the flag is cleared, the runner stopped and the CRM reset, the
     * screen the keywords determine and the keywords are snapshotted, and the
     * suggestion is generated from the first three results.
     */
    method OnResults(results: seq<string>, keywords: seq<string>)
      modifies this, runner, runner.store
      ensures !(old(autoSelect) && |results| > 0) ==>
        && View() == old(View())
        && runner.View() == old(runner.View()) && runner.pending == old(runner.pending)
      ensures old(autoSelect) && |results| > 0 ==>
        && View() == Snapshotted(old(View()), Contexts(results), keywords)
        && runner.pending == []
        && runner.View() == RunnerView(false, -1, "", [], InitialState(), None)
      ensures old(autoSelect) && |results| > 0 ==> Valid()
      ensures old(Valid()) ==> Valid()
    {
      if autoSelect && |results| > 0 {
        autoSelect := false;
        ResetRun();
        TakeSnapshot(DetermineCrmScreen(keywords), Contexts(results), keywords);
      }
    }

    /** `stopAutoAction()` and `resetCrm()`. */
    method ResetRun()
      modifies runner, runner.store
      ensures runner.pending == []
      ensures runner.View() == RunnerView(false, -1, "", [], InitialState(), None)
    {
      runner.Stop();
      runner.store.ResetState();
    }

    /** The screen and keywords snapshot, responding, and the request for a suggestion. */
    method TakeSnapshot(screen: Screen, contexts: seq<string>, keywords: seq<string>)
      modifies this
      ensures View() == old(View()).(autoSelect := false, crmScreen := screen, pendingScreen := screen, pendingKeywords := keywords,
       phase := Responding, effects := old(effects) + [Generate(old(query), contexts, keywords, screen)])
    {
      autoSelect := false;
      crmScreenType := screen;
      pendingScreen := screen;
      pendingKeywords := keywords;
      phase := Responding;
      effects := effects + [Generate(query, contexts, keywords, screen)];
    }

    /** The `onSpeakEnd` callback given to `generate`: awaiting the customer's reply, from whatever phase. */
    method OnSpeakEnd()
      modifies this
      ensures View() == old(View()).(phase := AwaitingConfirm)
      ensures old(Valid()) ==> Valid()
    {
      phase := AwaitingConfirm;
    }

    /** The executing-to-done effect. */
    method OnRunnerUpdate()
      modifies this
      ensures View() == old(View()).(phase := PhaseAfterRunnerUpdate(old(phase), runner.isRunning, runner.completedSteps))
      ensures old(Valid()) ==> Valid()
    {
      if phase == Executing && !runner.isRunning && |runner.completedSteps| > 0 {
        phase := Done;
      }
    }

    /** `handleManualSearch`: the query always changes; only non-blank text starts the automatic flow. */
    method OnManualSearch(value: string)
      modifies this
      ensures View() == ManualSearch(old(View()), value)
      ensures old(Valid()) ==> Valid()
    {
      ghost var v := View();
      query := value;
      effects := effects + [QueryChange(value)];
      ghost var typed := View();
      assert typed == v.(query := value, effects := v.effects + [QueryChange(value)]);
      if Trim(value) != [] {
        autoSelect := true;
        phase := Searching;
        assert View() == typed.(autoSelect := true, phase := Searching);
      }
    }
  }
}
