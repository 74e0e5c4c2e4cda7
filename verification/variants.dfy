/**
 How the two drain intervals differ, and where they agree.  They differ in
 four ways: stickiness of terminal states, whether a failing tick records
 its milestone, the success phrase ("get your file" against "download your
 file"), and the text of the ninth catalog entry ("orange" against
 "download your file").
 */
module Variants {
  import opened Seqs
  import opened Classifier
  import opened Catalog
  import opened Tracker
  import opened Phrases

  /** Before the job has ended, a message that is not a failure, that both
      variants classify alike and that reveals the same step in both
      catalogs leaves both variants in the same state. */
  lemma AgreeBeforeTerminal(s: State)
    requires !IsTerminal(s.indicator) && s.queue != [] && !IsFailure(s.queue[0])
    requires IsProviderSuccess(s.queue[0]) <==> IsStandaloneSuccess(s.queue[0])
    requires Find(ProviderSteps, s.queue[0]) == Find(StandaloneSteps, s.queue[0])
    ensures ProviderTick(s) == StandaloneTick(s)
  {
    SameLabels();
  }

  /** Before the job has ended, a failure ends both variants in the same
      state except for the milestones, which only the provider records. */
  lemma FailureAgreesExceptSteps(s: State)
    requires !IsTerminal(s.indicator) && s.queue != [] && IsFailure(s.queue[0])
    ensures ProviderTick(s).(steps := s.steps) == StandaloneTick(s)
    ensures ProviderTick(s).steps == Reached(s.steps, ProviderSteps, s.queue[0])
  {
  }

  /** Stickiness: after success, a sync pass report sets the provider back to
      `syncing` but leaves the standalone component at `success`; both
      record the pass. */
  lemma StickinessContrast(s: State)
    requires s.indicator == Success && s.queue != [] && s.queue[0] == "Pass number"
    ensures ProviderTick(s).indicator == Syncing
    ensures StandaloneTick(s).indicator == Success
    ensures "Sync Passses" in ProviderTick(s).steps
    ensures "Sync Passses" in StandaloneTick(s).steps
  {
    PassNumberClass();
    FindPassNumberInProviderSteps();
    FindPassNumberInStandaloneSteps();
    assert ProviderSteps[5].labelText == "Sync Passses" == StandaloneSteps[5].labelText;
    assert "Sync Passses" in Elems(ProviderTick(s).steps);
    assert "Sync Passses" in Elems(StandaloneTick(s).steps);
  }

  /** A failing greeting: both variants report the error, but only the
      provider records "Initiate". */
  lemma FailingTickContrast(s: State)
    requires !IsTerminal(s.indicator) && s.queue != [] && s.queue[0] == "Here we go error"
    requires "Initiate" !in s.steps
    ensures ProviderTick(s).indicator == Error && StandaloneTick(s).indicator == Error
    ensures ProviderTick(s).steps == s.steps + ["Initiate"]
    ensures StandaloneTick(s).steps == s.steps
  {
    HereWeGoErrorClass();
    FindHereWeGoErrorInProviderSteps();
    assert ProviderSteps[0].labelText == "Initiate";
  }

  /** "get your file" is a success only for the provider. */
  lemma GetYourFileContrast(s: State)
    requires !IsTerminal(s.indicator) && s.queue != [] && s.queue[0] == "get your file"
    ensures ProviderTick(s).indicator == Success
    ensures StandaloneTick(s).indicator == Syncing
  {
    GetYourFileClass();
  }

  /** "download your file" is a success and a milestone only for the
      standalone component. */
  lemma DownloadContrast(s: State)
    requires !IsTerminal(s.indicator) && s.queue != [] && s.queue[0] == "download your file"
    ensures ProviderTick(s).indicator == Syncing
    ensures ProviderTick(s).steps == s.steps
    ensures StandaloneTick(s).indicator == Success
    ensures "Complete" in StandaloneTick(s).steps
  {
    DownloadClass();
    FindDownloadInProviderSteps();
    FindDownloadInStandaloneSteps();
    assert StandaloneSteps[8].labelText == "Complete";
    assert "Complete" in Elems(StandaloneTick(s).steps);
  }

  /** "orange" completes the provider's catalog and reveals nothing to the
      standalone component, whatever its indicator. */
  lemma OrangeContrast(s: State)
    requires s.queue != [] && s.queue[0] == "orange"
    ensures "Complete" in ProviderTick(s).steps
    ensures StandaloneTick(s).steps == s.steps
  {
    OrangeClass();
    FindOrangeInProviderSteps();
    FindOrangeInStandaloneSteps();
    assert ProviderSteps[8].labelText == "Complete";
    assert "Complete" in Elems(ProviderTick(s).steps);
  }
}
