/**
 * The auto-action runner: it turns an action sequence into a queue of timers
 * (for each step a highlight, then 600 ms later the step's dispatch; a finish
 * timer at the end), fires them in order against the CRM store, and can be
 * stopped or superseded, which cancels every pending timer.
 *
 * Time is the due time of each timer in milliseconds after `run`; the browser's
 * timer loop is modelled by `FireNext`, which fires the earliest pending timer
 * (the queue is sorted by due time, and timers due together fire in the order
 * they were set).
 */
module AutoAction {
  import opened Wrappers
  import opened CrmTypes
  import opened CrmData
  import opened CrmReducer
  import opened ActionSequences
  import opened SequenceEffects

  /** What a timer does when it fires. */
  datatype Event =
    | ShowStep(index: nat, caption: string, elementId: string)       // highlight timer
    | DispatchStep(index: nat, action: Option<CrmAction>, caption: string)
    | Finish

  datatype Timer = Timer(due: nat, event: Event)

  /** `if (dispatches[i])`: the step's command, when the sequence has one at that index. */
  function DispatchOf(dispatches: seq<CrmAction>, i: nat): (a: Option<CrmAction>)
    ensures a.Some? <==> i < |dispatches|
    ensures a.Some? ==> a.value == dispatches[i]
  {
    if i < |dispatches| then Some(dispatches[i]) else None
  }

  /** The delay one step adds to the running offset: before, the 600 ms cursor animation, after. */
  function StepSpan(step: Step): nat {
    step.delayBefore + 600 + step.delayAfter
  }

  function TotalSpan(steps: seq<Step>): nat
    decreases |steps|
  {
    if |steps| == 0 then 0 else StepSpan(steps[0]) + TotalSpan(steps[1..])
  }

  /**
   * The timers set for steps i.. when the running offset is `offset`: the
   * highlight at offset + delayBefore, the dispatch 600 ms after it, the next
   * step from the dispatch time + delayAfter, and the finish 500 ms after the
   * last step.
   */
  function ScheduleFrom(steps: seq<Step>, dispatches: seq<CrmAction>, i: nat, offset: nat): (ts: seq<Timer>)
    requires i <= |steps|
    ensures |ts| == 2 * (|steps| - i) + 1
    decreases |steps| - i
  {
    if i == |steps| then [Timer(offset + 500, Finish)]
    else
      var show := offset + steps[i].delayBefore;
      var dispatchAt := show + 600;
      [ Timer(show, ShowStep(i, steps[i].caption, steps[i].elementId)),
        Timer(dispatchAt, DispatchStep(i, DispatchOf(dispatches, i), steps[i].caption)) ]
      + ScheduleFrom(steps, dispatches, i + 1, dispatchAt + steps[i].delayAfter)
  }

  /** The timers `run` queues for a sequence: two per step and the finish. */
  function Schedule(s: ActionSequence): (ts: seq<Timer>)
    ensures |ts| == 2 * |s.steps| + 1
  {
    ScheduleFrom(s.steps, s.dispatches, 0, 0)
  }

  // ---------------------------------------------------------------------------
  // The shape of the schedule
  // ---------------------------------------------------------------------------

  /**
   * The event of timer j among the timers of steps i..: even timers show a step,
   * odd ones dispatch it, the last one finishes.
   */
  function EventAt(steps: seq<Step>, dispatches: seq<CrmAction>, i: nat, j: nat): Event
    requires i <= |steps| && j <= 2 * (|steps| - i)
  {
    if j == 2 * (|steps| - i) then Finish
    else
      var n := i + j / 2;
      if j % 2 == 0 then ShowStep(n, steps[n].caption, steps[n].elementId)
      else DispatchStep(n, DispatchOf(dispatches, n), steps[n].caption)
  }

  /** Dropping the first step's two timers shifts the event numbering by two. */
  lemma EventShift(steps: seq<Step>, dispatches: seq<CrmAction>, i: nat, j: nat)
    requires i < |steps| && 2 <= j <= 2 * (|steps| - i)
    ensures EventAt(steps, dispatches, i, j) == EventAt(steps, dispatches, i + 1, j - 2)
  {
    assert (j - 2) / 2 == j / 2 - 1 && (j - 2) % 2 == j % 2;
  }

  /** For steps i..: timer j carries `EventAt(j)`. */
  lemma {:induction false} ScheduleEvents(steps: seq<Step>, dispatches: seq<CrmAction>, i: nat, offset: nat)
    requires i <= |steps|
    ensures var ts := ScheduleFrom(steps, dispatches, i, offset);
      forall j :: 0 <= j < |ts| ==> ts[j].event == EventAt(steps, dispatches, i, j)
    decreases |steps| - i
  {
    if i < |steps| {
      var ts := ScheduleFrom(steps, dispatches, i, offset);
      var next := offset + steps[i].delayBefore + 600 + steps[i].delayAfter;
      var rest := ScheduleFrom(steps, dispatches, i + 1, next);
      ScheduleEvents(steps, dispatches, i + 1, next);
      assert ts[2..] == rest;
      forall j | 2 <= j < |ts| ensures ts[j].event == EventAt(steps, dispatches, i, j) {
        assert ts[j] == rest[j - 2];
        EventShift(steps, dispatches, i, j);
      }
    }
  }

  /** Among timers ts, the dispatch of step k is due 600 ms after its highlight. */
  predicate DispatchAfterShow(ts: seq<Timer>, k: nat) {
    2 * k + 1 < |ts| && ts[2 * k + 1].due == ts[2 * k].due + 600
  }

  /** For steps i..: each dispatch is due 600 ms after its highlight. */
  lemma {:induction false} DispatchFollowsShow(steps: seq<Step>, dispatches: seq<CrmAction>, i: nat, offset: nat)
    requires i <= |steps|
    ensures forall k: nat :: k < |steps| - i ==> DispatchAfterShow(ScheduleFrom(steps, dispatches, i, offset), k)
    decreases |steps| - i
  {
    if i < |steps| {
      var ts := ScheduleFrom(steps, dispatches, i, offset);
      var next := offset + steps[i].delayBefore + 600 + steps[i].delayAfter;
      var rest := ScheduleFrom(steps, dispatches, i + 1, next);
      DispatchFollowsShow(steps, dispatches, i + 1, next);
      assert ts[2..] == rest;
      forall k: nat | k < |steps| - i ensures DispatchAfterShow(ts, k) {
        if k > 0 {
          assert DispatchAfterShow(rest, k - 1);
          assert ts[2 * k + 1] == rest[2 * (k - 1) + 1] && ts[2 * k] == rest[2 * (k - 1)];
        }
      }
    }
  }

  /** For steps i..: due times never decrease, and none is before the offset. */
  lemma {:induction false} ScheduleMonotone(steps: seq<Step>, dispatches: seq<CrmAction>, i: nat, offset: nat)
    requires i <= |steps|
    ensures var ts := ScheduleFrom(steps, dispatches, i, offset);
      && offset <= ts[0].due
      && (forall k :: 0 <= k < |ts| - 1 ==> ts[k].due <= ts[k + 1].due)
    decreases |steps| - i
  {
    if i < |steps| {
      var ts := ScheduleFrom(steps, dispatches, i, offset);
      var next := offset + steps[i].delayBefore + 600 + steps[i].delayAfter;
      var rest := ScheduleFrom(steps, dispatches, i + 1, next);
      ScheduleMonotone(steps, dispatches, i + 1, next);
      assert ts[2..] == rest;
      forall k | 2 <= k < |ts| - 1 ensures ts[k].due <= ts[k + 1].due {
        assert ts[k] == rest[k - 2] && ts[k + 1] == rest[k - 1];
      }
    }
  }

  /** For steps i..: the finish is due at the offset plus the steps' spans plus 500. */
  lemma {:induction false} ScheduleFinish(steps: seq<Step>, dispatches: seq<CrmAction>, i: nat, offset: nat)
    requires i <= |steps|
    ensures var ts := ScheduleFrom(steps, dispatches, i, offset);
      ts[|ts| - 1] == Timer(offset + TotalSpan(steps[i..]) + 500, Finish)
    decreases |steps| - i
  {
    if i < |steps| {
      var ts := ScheduleFrom(steps, dispatches, i, offset);
      var next := offset + steps[i].delayBefore + 600 + steps[i].delayAfter;
      var rest := ScheduleFrom(steps, dispatches, i + 1, next);
      ScheduleFinish(steps, dispatches, i + 1, next);
      assert ts[2..] == rest;
      assert steps[i..][1..] == steps[i + 1..];
    }
  }

  /** The queue is sorted by due time, so firing the front timer first is firing the earliest. */
  lemma ScheduleSorted(s: ActionSequence, a: nat, b: nat)
    requires a <= b < |Schedule(s)|
    ensures Schedule(s)[a].due <= Schedule(s)[b].due
    decreases b - a
  {
    ScheduleMonotone(s.steps, s.dispatches, 0, 0);
    if a < b {
      ScheduleSorted(s, a + 1, b);
    }
  }

  /** `run` queues exactly 2n+1 timers, the last one the finish. */
  lemma TimerCount(s: ActionSequence)
    ensures |Schedule(s)| == 2 * |s.steps| + 1
    ensures Schedule(s)[2 * |s.steps|] == Timer(TotalSpan(s.steps) + 500, Finish)
  {
    ScheduleFinish(s.steps, s.dispatches, 0, 0);
    assert s.steps[0..] == s.steps;
  }

  /** Each step's dispatch fires 600 ms after its highlight, and dispatches fire in step order. */
  lemma DispatchesInOrder(s: ActionSequence, i: nat, j: nat)
    requires i < j < |s.steps|
    ensures Schedule(s)[2 * i + 1].due == Schedule(s)[2 * i].due + 600
    ensures Schedule(s)[2 * i + 1].due < Schedule(s)[2 * j + 1].due
  {
    var ts := Schedule(s);
    DispatchFollowsShow(s.steps, s.dispatches, 0, 0);
    assert DispatchAfterShow(ts, i) && DispatchAfterShow(ts, j);
    ScheduleSorted(s, 2 * i + 1, 2 * j);
  }

  /** The roaming sequence's finish timer is due 5,900 ms after `run`. */
  lemma RoamingFinishesAt5900(region: string, product: nat, productName: string)
    ensures Schedule(RoamingSteps(region, product, productName))[6] == Timer(5900, Finish)
  {
    var s := RoamingSteps(region, product, productName);
    var steps := s.steps;
    TimerCount(s);
    assert steps[1..][0] == steps[1] && steps[1..][1..] == steps[2..];
    assert steps[2..][0] == steps[2] && steps[2..][1..] == [];
    assert TotalSpan(steps[2..]) == StepSpan(steps[2]) + TotalSpan([]);
    assert TotalSpan(steps[1..]) == StepSpan(steps[1]) + TotalSpan(steps[2..]);
    assert TotalSpan(steps) == StepSpan(steps[0]) + TotalSpan(steps[1..]);
  }

  // ---------------------------------------------------------------------------
  // What the timers do
  // ---------------------------------------------------------------------------

  /** The observable state of the runner and the store it drives. */
  datatype RunnerView = RunnerView(
    isRunning: bool,
    stepIndex: int,
    stepLabel: string,
    completed: seq<string>,
    crm: CrmState,
    highlight: Option<string>)

  /** One timer callback. */
  function Fire(v: RunnerView, e: Event): RunnerView {
    match e
    case ShowStep(i, caption, id) => v.(stepIndex := i, stepLabel := caption, highlight := Some(id))
    case DispatchStep(_, action, caption) =>
      v.(crm := if action.Some? then Reduce(v.crm, action.value) else v.crm, completed := v.completed + [caption])
    case Finish => v.(isRunning := false, stepIndex := -1, stepLabel := "", highlight := None)
  }

  /** Timers fired one after another, front first. */
  function FireAll(v: RunnerView, ts: seq<Timer>): RunnerView
    decreases |ts|
  {
    if |ts| == 0 then v else FireAll(Fire(v, ts[0].event), ts[1..])
  }

  function Captions(steps: seq<Step>): (cs: seq<string>)
    ensures |cs| == |steps| && forall i :: 0 <= i < |steps| ==> cs[i] == steps[i].caption
  {
    seq(|steps|, i requires 0 <= i < |steps| => steps[i].caption)
  }

  /**
   * Firing the timers of steps i.. appends those steps' captions to the
   * completed list in order, applies their commands to the document in order,
   * and ends with the runner idle and nothing highlighted.
   */
  lemma {:induction false} FireScheduleFrom(v: RunnerView, steps: seq<Step>, dispatches: seq<CrmAction>, i: nat, offset: nat)
    requires i <= |steps| == |dispatches|
    ensures var w := FireAll(v, ScheduleFrom(steps, dispatches, i, offset));
      && w.completed == v.completed + Captions(steps[i..])
      && w.crm == ReduceAll(v.crm, dispatches[i..])
      && !w.isRunning && w.stepIndex == -1 && w.stepLabel == "" && w.highlight == None
    decreases |steps| - i
  {
    var ts := ScheduleFrom(steps, dispatches, i, offset);
    if i == |steps| {
      assert ts[1..] == [];
      assert Captions(steps[i..]) == [];
    } else {
      var show := offset + steps[i].delayBefore;
      var next := show + 600 + steps[i].delayAfter;
      var rest := ScheduleFrom(steps, dispatches, i + 1, next);
      assert ts[1..][1..] == rest;
      var v1 := Fire(v, ts[0].event);
      var v2 := Fire(v1, ts[1].event);
      assert FireAll(v, ts) == FireAll(v2, rest);
      FireScheduleFrom(v2, steps, dispatches, i + 1, next);
      assert Captions(steps[i..]) == [steps[i].caption] + Captions(steps[i + 1..]);
      assert dispatches[i..][0] == dispatches[i] && dispatches[i..][1..] == dispatches[i + 1..];
    }
  }

  /**
   * Once every timer of a run has fired: the completed list is the step
   * captions in order, the document is the commands applied in order, and the
   * runner is idle with nothing highlighted.
   */
  lemma RunToEnd(v: RunnerView, s: ActionSequence)
    requires |s.steps| == |s.dispatches|
    ensures var w := FireAll(v, Schedule(s));
      && w.completed == v.completed + Captions(s.steps)
      && w.crm == ReduceAll(v.crm, s.dispatches)
      && !w.isRunning && w.stepIndex == -1 && w.stepLabel == "" && w.highlight == None
  {
    FireScheduleFrom(v, s.steps, s.dispatches, 0, 0);
    assert s.steps[0..] == s.steps && s.dispatches[0..] == s.dispatches;
  }

  /**
   * A run of any screen's sequence, played to the end from any document, leaves
   * the other screens alone, ends with the screen's status terminal, and lists
   * every step caption as completed.
   */
  lemma RunCommitsItsScreen(v: RunnerView, screen: Screen, keywords: Option<seq<string>>, data: ReferenceData)
    requires Usable(data)
    ensures var s := GetActionSequence(screen, keywords, data).value;
      var w := FireAll(v, Schedule(s));
      && SameExcept(v.crm, w.crm, screen)
      && Status(w.crm, screen) == TerminalStatus(screen)
      && w.completed == v.completed + Captions(s.steps)
  {
    var s := GetActionSequence(screen, keywords, data).value;
    RunToEnd(v, s);
    SequenceCommitsItsScreen(screen, s, v.crm);
  }

  lemma FireAllSplit(v: RunnerView, ts: seq<Timer>, k: nat)
    requires k < |ts|
    ensures FireAll(v, ts[..k + 1]) == Fire(FireAll(v, ts[..k]), ts[k].event)
    decreases k
  {
    if k > 0 {
      assert ts[..k + 1][1..] == ts[1..][..k];
      assert ts[..k][1..] == ts[1..][..k - 1];
      FireAllSplit(Fire(v, ts[0].event), ts[1..], k - 1);
    }
  }

  // ---------------------------------------------------------------------------
  // The runner
  // ---------------------------------------------------------------------------

  /**
   * The `steps.forEach` of `run` and the finish timer after it: the timers in
   * the order they are set, with the running offset `cumulativeDelay`.
   */
  method QueueTimers(steps: seq<Step>, dispatches: seq<CrmAction>) returns (timers: seq<Timer>)
    ensures timers == ScheduleFrom(steps, dispatches, 0, 0)
  {
    timers := [];
    var cumulativeDelay: nat := 0;
    for i := 0 to |steps|
      invariant timers + ScheduleFrom(steps, dispatches, i, cumulativeDelay) == ScheduleFrom(steps, dispatches, 0, 0)
    {
      ghost var offset := cumulativeDelay;
      cumulativeDelay := cumulativeDelay + steps[i].delayBefore;
      var highlightTimer := Timer(cumulativeDelay, ShowStep(i, steps[i].caption, steps[i].elementId));
      var dispatchDelay := cumulativeDelay + 600;
      var dispatchTimer := Timer(dispatchDelay, DispatchStep(i, DispatchOf(dispatches, i), steps[i].caption));
      ghost var rest := ScheduleFrom(steps, dispatches, i + 1, dispatchDelay + steps[i].delayAfter);
      assert ScheduleFrom(steps, dispatches, i, offset) == [highlightTimer, dispatchTimer] + rest;
      assert timers + ([highlightTimer, dispatchTimer] + rest) == (timers + [highlightTimer, dispatchTimer]) + rest;
      timers := timers + [highlightTimer, dispatchTimer];
      cumulativeDelay := dispatchDelay + steps[i].delayAfter;
    }
    timers := timers + [Timer(cumulativeDelay + 500, Finish)];
  }

  /** `useCrmAutoAction` over a CRM store. */
  class AutoActionRunner {
    var isRunning: bool
    var currentStepIndex: int
    var currentStepLabel: string
    var completedSteps: seq<string>
    /** `timersRef.current`, less the timers that already fired. */
    var pending: seq<Timer>
    const store: CrmStore

    function View(): RunnerView
      reads this, store
    {
      RunnerView(isRunning, currentStepIndex, currentStepLabel, completedSteps, store.state, store.highlightedElement)
    }

    constructor(store: CrmStore)
      ensures this.store == store
      ensures !isRunning && currentStepIndex == -1 && currentStepLabel == "" && completedSteps == [] && pending == []
    {
      this.store := store;
      isRunning := false;
      currentStepIndex := -1;
      currentStepLabel := "";
      completedSteps := [];
      pending := [];
    }

    /** `cleanup`: cancel every pending timer and clear the highlight. */
    method Cleanup()
      modifies this, store
      ensures pending == []
      ensures View() == old(View()).(highlight := None)
    {
      pending := [];
      store.SetHighlightedElement(None);
    }

    /**
     * `run` once `getActionSequence` has answered: nothing at all without a
     * sequence; otherwise every earlier timer is cancelled and the new
     * sequence's timers are the only ones pending.
     */
    method RunSequence(sequence: Option<ActionSequence>)
      modifies this, store
      ensures sequence.None? ==> View() == old(View()) && pending == old(pending)
      ensures sequence.Some? ==>
        && pending == Schedule(sequence.value)
        && View() == old(View()).(isRunning := true, stepIndex := 0, completed := [], highlight := None)
    {
      if sequence.None? {
        return;
      }
      Cleanup();
      isRunning := true;
      currentStepIndex := 0;
      completedSteps := [];
      pending := QueueTimers(sequence.value.steps, sequence.value.dispatches);
    }

    /** `run(screenType, keywords)` on the demo's reference data. */
    method Run(screen: Screen, keywords: Option<seq<string>>)
      modifies this, store
      ensures pending == Schedule(GetActionSequence(screen, keywords, Demo).value)
      ensures View() == old(View()).(isRunning := true, stepIndex := 0, completed := [], highlight := None)
    {
      DemoUsable();
      var sequence := GetActionSequence(screen, keywords, Demo);
      RunSequence(sequence);
    }

    /** The earliest pending timer fires. */
    method FireNext()
      requires pending != []
      modifies this, store
      ensures pending == old(pending[1..])
      ensures View() == Fire(old(View()), old(pending[0].event))
    {
      var t := pending[0];
      pending := pending[1..];
      match t.event {
        case ShowStep(i, caption, id) =>
          currentStepIndex := i;
          currentStepLabel := caption;
          store.SetHighlightedElement(Some(id));
        case DispatchStep(_, action, caption) =>
          if action.Some? {
            store.Dispatch(action.value);
          }
          completedSteps := completedSteps + [caption];
        case Finish =>
          isRunning := false;
          currentStepIndex := -1;
          currentStepLabel := "";
          store.SetHighlightedElement(None);
      }
    }

    /** Every pending timer fires, in queue order, with nothing in between. */
    method FireAllPending()
      modifies this, store
      ensures pending == []
      ensures View() == FireAll(old(View()), old(pending))
    {
      ghost var queue := pending;
      ghost var start := View();
      ghost var k := 0;
      while pending != []
        invariant 0 <= k <= |queue| && pending == queue[k..]
        invariant View() == FireAll(start, queue[..k])
        decreases |pending|
      {
        FireAllSplit(start, queue, k);
        FireNext();
        k := k + 1;
      }
      assert queue[..|queue|] == queue;
    }

    /** `stop`: cancel every timer, clear the highlight and the progress; fired dispatches stay applied. */
    method Stop()
      modifies this, store
      ensures pending == []
      ensures View() == old(View()).(isRunning := false, stepIndex := -1, stepLabel := "", completed := [], highlight := None)
    {
      Cleanup();
      isRunning := false;
      currentStepIndex := -1;
      currentStepLabel := "";
      completedSteps := [];
    }
  }
}
