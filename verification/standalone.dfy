/**
 The drain interval of the standalone component (`ProcessVideoWebSocket`):
 once the indicator is `error` or `success` it never changes again, a
 failure seen before that ends the tick before milestone matching, and
 milestones keep being recorded after the job has ended.
 */
module StandaloneComponent {
  import opened Seqs
  import opened Classifier
  import opened Catalog
  import opened Tracker
  import opened Progress
  import opened Phrases
  import opened Walk

  /** A tick on an empty queue changes nothing. */
  lemma EmptyTickKeepsState(s: State)
    requires s.queue == []
    ensures StandaloneTick(s) == s
  {
  }

  /** Before the job has ended the indicator follows the message: `error`
      exactly for a failure, `success` exactly for a standalone success
      phrase that is not a failure, `syncing` otherwise. */
  lemma UnsettledTickClassifies(s: State)
    requires !IsTerminal(s.indicator) && s.queue != []
    ensures StandaloneTick(s).indicator == Error <==> IsFailure(s.queue[0])
    ensures StandaloneTick(s).indicator == Success
        <==> !IsFailure(s.queue[0]) && IsStandaloneSuccess(s.queue[0])
    ensures StandaloneTick(s).indicator == Syncing
        <==> !IsFailure(s.queue[0]) && !IsStandaloneSuccess(s.queue[0])
  {
  }

  /** The first message processed never leaves the indicator unset. */
  lemma FirstMessageClassified(s: State)
    requires s.indicator == Unset && s.queue != []
    ensures StandaloneTick(s).indicator != Unset
    ensures StandaloneTick(s).indicator == Syncing || IsTerminal(StandaloneTick(s).indicator)
  {
    UnsettledTickClassifies(s);
  }

  /** Once terminal, a tick keeps the indicator whatever the message says. */
  lemma TerminalSticks(s: State)
    requires IsTerminal(s.indicator)
    ensures StandaloneTick(s).indicator == s.indicator
  {
  }

  /** Once terminal, the indicator survives every event. */
  lemma TerminalSticksEvent(s: State, e: Event)
    requires IsTerminal(s.indicator)
    ensures Apply(Standalone, s, e).indicator == s.indicator
  {
    if e.Tick? && s.connected {
      TerminalSticks(s);
    }
  }

  /** Once terminal, the indicator survives any sequence of events. */
  lemma {:induction false} StickyOverRun(s: State, es: seq<Event>)
    requires IsTerminal(s.indicator)
    ensures Run(Standalone, s, es).indicator == s.indicator
    decreases |es|
  {
    if es != [] {
      TerminalSticksEvent(s, es[0]);
      StickyOverRun(Apply(Standalone, s, es[0]), es[1..]);
    }
  }

  /** A failure seen before the job has ended sets `error`, empties the
      queue and returns before milestone matching: nothing is recorded. */
  lemma FailureStopsTick(s: State)
    requires !IsTerminal(s.indicator) && s.queue != [] && IsFailure(s.queue[0])
    ensures StandaloneTick(s).indicator == Error
    ensures StandaloneTick(s).queue == []
    ensures StandaloneTick(s).message == s.queue[0]
    ensures StandaloneTick(s).steps == s.steps
  {
  }

  /** After the job has ended, every message is still dequeued in order and
      matched against the catalog, failures included, which no longer empty
      the queue. */
  lemma RecordsAfterTerminal(s: State)
    requires IsTerminal(s.indicator) && s.queue != []
    ensures StandaloneTick(s).queue == s.queue[1..]
    ensures StandaloneTick(s).message == s.queue[0]
    ensures Find(StandaloneSteps, s.queue[0]).Some? ==>
      StandaloneSteps[Find(StandaloneSteps, s.queue[0]).value].labelText in StandaloneTick(s).steps
  {
    match Find(StandaloneSteps, s.queue[0])
    case None =>
    case Some(k) =>
      assert StandaloneSteps[k].labelText in Elems(StandaloneTick(s).steps);
  }

  /** A message that is not a failure records the milestone it reveals
      first, in whatever state the indicator is. */
  lemma MilestoneUnlessFailed(s: State)
    requires s.queue != []
    requires IsTerminal(s.indicator) || !IsFailure(s.queue[0])
    ensures StandaloneTick(s).steps == Reached(s.steps, StandaloneSteps, s.queue[0])
  {
  }

  /** A one-message session is one standalone tick on the connected state
      holding that message. */
  lemma OneMessageSession(m: string)
    ensures Run(Standalone, Init(), Session([m])) == StandaloneTick(Connected().(queue := [m]))
  {
    OneMessage(Standalone, m);
  }

  /** A two-message session is two standalone ticks, the second message
      arriving after the first tick. */
  lemma TwoMessageSession(m1: string, m2: string)
    ensures Run(Standalone, Init(), Session([m1, m2]))
         == StandaloneTick(OnFrame(StandaloneTick(Connected().(queue := [m1])), m2))
  {
    TwoMessages(Standalone, m1, m2);
  }

  /** "download your file" is both the success phrase and the ninth
      catalog text: one tick reports success and reaches "Complete". */
  lemma DownloadScenario()
    ensures Run(Standalone, Init(), Session(["download your file"])).indicator == Success
    ensures Run(Standalone, Init(), Session(["download your file"])).steps == ["Complete"]
    ensures ProgressPercent(Run(Standalone, Init(), Session(["download your file"]))) == 11
  {
    OneMessageSession("download your file");
    DownloadTick(Connected().(queue := ["download your file"]));
  }

  /** The tick on "download your file" before the job has ended, with
      nothing reached yet. */
  lemma DownloadTick(s: State)
    requires s.queue != [] && s.queue[0] == "download your file"
    requires !IsTerminal(s.indicator) && s.steps == []
    ensures StandaloneTick(s).indicator == Success
    ensures StandaloneTick(s).steps == ["Complete"]
  {
    DownloadClass();
    assert StandaloneTick(s).steps == Reached([], StandaloneSteps, "download your file");
    FindDownloadInStandaloneSteps();
    assert StandaloneSteps[8].labelText == "Complete";
  }

  /** After success, a later failure message is shown but the indicator
      stays at success. */
  lemma SuccessIgnoresFailure()
    ensures Run(Standalone, Init(), Session(["download your file", "no video"])).indicator == Success
    ensures Run(Standalone, Init(), Session(["download your file", "no video"])).message == "no video"
  {
    TwoMessageSession("download your file", "no video");
    var done := StandaloneTick(Connected().(queue := ["download your file"]));
    DownloadTick(Connected().(queue := ["download your file"]));
    TerminalSticks(OnFrame(done, "no video"));
  }
}
