/**
 * What replaying an action sequence does to the CRM document: every sequence
 * the planner builds, dispatched in order from any document, leaves the other
 * screens alone and puts its own screen in its terminal status.
 */
module SequenceEffects {
  import opened Wrappers
  import opened CrmTypes
  import opened CrmReducer
  import opened ActionSequences

  /**
   * A well-formed sequence for a screen, replayed from any document, changes
   * only that screen's sub-state, ends with the screen's status terminal, and
   * (for the data-addon screen) with no add-on selected.
   */
  lemma SequenceCommitsItsScreen(screen: Screen, s: ActionSequence, state: CrmState)
    requires WellFormed(screen, s)
    ensures var r := ReduceAll(state, s.dispatches);
      && SameExcept(state, r, screen)
      && Status(r, screen) == TerminalStatus(screen)
      && (screen == DataAddon ==> r.dataAddon.selectedAddon == None)
  {
    var n := |s.dispatches|;
    var prefix := s.dispatches[..n - 1];
    var last := s.dispatches[n - 1];
    assert s.dispatches == prefix + [last];
    ReduceAllSnoc(state, prefix, last);
    RunStaysOnScreen(state, prefix, screen);
    assert Target(last) == screen && IsCommit(last) by {
      CommitOfIsCommit(screen, last);
    }
  }
}
