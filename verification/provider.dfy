/**
 The drain interval of the context provider (`WebSocketProvider`): every
 tick recomputes the indicator from the dequeued message alone, and the
 milestone is recorded even on the tick that reports a failure.
 */
module ContextProvider {
  import opened Seqs
  import opened Classifier
  import opened Catalog
  import opened Tracker
  import opened Progress
  import opened Phrases
  import opened Walk

  /** A tick on an empty queue changes nothing. */
  lemma EmptyTickKeepsState(s: State)
    requires s.queue == []
    ensures ProviderTick(s) == s
  {
  }

  /** A tick removes exactly the head of the queue and shows it verbatim; the
      rest of the queue stays in order unless the head is a failure, which
      empties it.  Nothing about the connection changes. */
  lemma TickDequeuesHead(s: State)
    requires s.queue != []
    ensures ProviderTick(s).message == s.queue[0]
    ensures !IsFailure(s.queue[0]) ==> [s.queue[0]] + ProviderTick(s).queue == s.queue
    ensures IsFailure(s.queue[0]) ==> ProviderTick(s).queue == []
    ensures ProviderTick(s).connected == s.connected && ProviderTick(s).link == s.link
  {
  }

  /** The indicator after a tick is `error` exactly for a failure, `success`
      exactly for a provider success phrase that is not a failure, and
      `syncing` otherwise; it is never left unset. */
  lemma TickIndicatorIff(s: State)
    requires s.queue != []
    ensures ProviderTick(s).indicator == Error <==> IsFailure(s.queue[0])
    ensures ProviderTick(s).indicator == Success
        <==> !IsFailure(s.queue[0]) && IsProviderSuccess(s.queue[0])
    ensures ProviderTick(s).indicator == Syncing
        <==> !IsFailure(s.queue[0]) && !IsProviderSuccess(s.queue[0])
    ensures ProviderTick(s).indicator != Unset
  {
  }

  /** No stickiness: the indicator before a tick has no influence on any
      field after it. */
  lemma IndicatorForgetsPast(s: State, prior: Indicator)
    requires s.queue != []
    ensures ProviderTick(s.(indicator := prior)) == ProviderTick(s)
  {
  }

  /** In particular an ordinary message after `error` or `success` sets
      `syncing` again. */
  lemma TerminalNotSticky(s: State)
    requires IsTerminal(s.indicator) && s.queue != []
    requires !IsFailure(s.queue[0]) && !IsProviderSuccess(s.queue[0])
    ensures ProviderTick(s).indicator == Syncing
  {
    TickIndicatorIff(s);
  }

  /** The milestone the message reveals first is recorded on every tick,
      the failing one included; no other label is added. */
  lemma MilestoneAlwaysRecorded(s: State)
    requires s.queue != []
    ensures ProviderTick(s).steps == Reached(s.steps, ProviderSteps, s.queue[0])
    ensures |ProviderTick(s).steps| <= |s.steps| + 1
    ensures Find(ProviderSteps, s.queue[0]).Some? ==>
      ProviderSteps[Find(ProviderSteps, s.queue[0]).value].labelText in ProviderTick(s).steps
    ensures Find(ProviderSteps, s.queue[0]).None? ==> ProviderTick(s).steps == s.steps
    ensures IsPrefix(s.steps, ProviderTick(s).steps)
  {
    var r := ProviderTick(s).steps;
    match Find(ProviderSteps, s.queue[0])
    case None =>
    case Some(k) =>
      assert ProviderSteps[k].labelText in Elems(r);
  }

  /** A failure empties the queue: the next tick finds nothing to show. */
  lemma FailureClearsQueue(s: State)
    requires s.connected && s.queue != [] && IsFailure(s.queue[0])
    ensures ProviderTick(s).queue == []
    ensures Apply(Provider, ProviderTick(s), Tick) == ProviderTick(s)
  {
  }

  /** A message that is both a failure and a success phrase reports the
      failure. */
  lemma FailureBeforeSuccess(s: State)
    requires s.queue != [] && IsFailure(s.queue[0]) && IsProviderSuccess(s.queue[0])
    ensures ProviderTick(s).indicator == Error
  {
  }

  /** A one-message session is one provider tick on the connected state
      holding that message. */
  lemma OneMessageSession(m: string)
    ensures Run(Provider, Init(), Session([m])) == ProviderTick(Connected().(queue := [m]))
  {
    OneMessage(Provider, m);
  }

  /** A two-message session is two provider ticks, the second message
      arriving after the first tick. */
  lemma TwoMessageSession(m1: string, m2: string)
    ensures Run(Provider, Init(), Session([m1, m2]))
         == ProviderTick(OnFrame(ProviderTick(Connected().(queue := [m1])), m2))
  {
    TwoMessages(Provider, m1, m2);
  }

  /** "Here we go" after connecting: the message is shown, the job is
      syncing, "Initiate" is reached and the estimate is 11 percent. */
  lemma GreetingScenario()
    ensures Run(Provider, Init(), Session(["Here we go"])).message == "Here we go"
    ensures Run(Provider, Init(), Session(["Here we go"])).indicator == Syncing
    ensures Run(Provider, Init(), Session(["Here we go"])).steps == ["Initiate"]
    ensures ProgressPercent(Run(Provider, Init(), Session(["Here we go"]))) == 11
  {
    OneMessageSession("Here we go");
    GreetingTick(Connected().(queue := ["Here we go"]));
  }

  /** The tick on "Here we go" with nothing reached yet. */
  lemma GreetingTick(s: State)
    requires s.queue != [] && s.queue[0] == "Here we go" && s.steps == []
    ensures ProviderTick(s).message == "Here we go"
    ensures ProviderTick(s).indicator == Syncing
    ensures ProviderTick(s).steps == ["Initiate"]
  {
    HereWeGoClass();
    FindHereWeGoInProviderSteps();
    assert ProviderSteps[0].labelText == "Initiate";
  }

  /** "no video" after connecting reports an error and reaches nothing. */
  lemma NoVideoScenario()
    ensures Run(Provider, Init(), Session(["no video"])).indicator == Error
    ensures Run(Provider, Init(), Session(["no video"])).queue == []
    ensures Run(Provider, Init(), Session(["no video"])).steps == []
  {
    OneMessageSession("no video");
    NoVideoTick(Connected().(queue := ["no video"]));
  }

  /** The tick on "no video": an error, an empty queue, no milestone. */
  lemma NoVideoTick(s: State)
    requires s.queue != [] && s.queue[0] == "no video"
    ensures ProviderTick(s).indicator == Error
    ensures ProviderTick(s).queue == []
    ensures ProviderTick(s).steps == s.steps
  {
    NoVideoClass();
    FindNoVideoInProviderSteps();
  }

  /** "get your file" after connecting reports success. */
  lemma GetYourFileScenario()
    ensures Run(Provider, Init(), Session(["get your file"])).indicator == Success
    ensures Run(Provider, Init(), Session(["get your file"])).steps == []
  {
    OneMessageSession("get your file");
    GetYourFileTick(Connected().(queue := ["get your file"]));
  }

  /** The tick on "get your file": success, no milestone. */
  lemma GetYourFileTick(s: State)
    requires s.queue != [] && s.queue[0] == "get your file"
    ensures ProviderTick(s).indicator == Success
    ensures ProviderTick(s).steps == s.steps
  {
    GetYourFileClass();
    FindGetYourFileInProviderSteps();
  }

  /** After an error, a greeting puts the job back to syncing. */
  lemma RecoveryScenario()
    ensures Run(Provider, Init(), Session(["no video", "Here we go"])).indicator == Syncing
    ensures Run(Provider, Init(), Session(["no video", "Here we go"])).steps == ["Initiate"]
  {
    TwoMessageSession("no video", "Here we go");
    var failed := ProviderTick(Connected().(queue := ["no video"]));
    NoVideoTick(Connected().(queue := ["no video"]));
    GreetingTick(OnFrame(failed, "Here we go"));
  }
}
