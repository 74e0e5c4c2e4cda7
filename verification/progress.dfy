/**
 Properties both tracker variants share: the connection handlers, the
 state invariant, and the growth of the milestone list and of the
 completion estimate over any sequence of events.
 */
module Progress {
  import opened Seqs
  import opened Catalog
  import opened Tracker

  /** `onmessage` appends the frame at the tail of the queue and changes
      nothing else. */
  lemma FrameAppends(v: Variant, s: State, data: string)
    ensures Apply(v, s, Frame(data)).queue == s.queue + [data]
    ensures Apply(v, s, Frame(data)).queue[..|s.queue|] == s.queue
    ensures Apply(v, s, Frame(data)).(queue := s.queue) == s
  {
  }

  /** Opening the socket sets the connected flag. */
  lemma OpenConnects(v: Variant, s: State)
    requires s.link.Handshaking?
    ensures Apply(v, s, Open).connected
    ensures Apply(v, s, Open).link == Live
  {
  }

  /** Every close of a socket, opened or not, clears the flag and schedules
      a new attempt after 5000 ms; nothing counts the attempts. */
  lemma CloseSchedulesReconnect(v: Variant, s: State)
    requires !s.link.Scheduled?
    ensures !Apply(v, s, Close).connected
    ensures Apply(v, s, Close).link == Scheduled(5000)
  {
  }

  /** An error always forces the close. */
  lemma ErrorForcesClose(v: Variant, s: State)
    requires !s.link.Scheduled?
    ensures Apply(v, s, SocketError) == Apply(v, s, Close)
    ensures !Apply(v, s, SocketError).connected
  {
  }

  /** The first attempt waits 1000 ms; when its timer fires a socket is
      created, and only its open event connects. */
  lemma InitialConnect(v: Variant)
    ensures Init().link == Scheduled(1000) && !Init().connected
    ensures Apply(v, Init(), TimerFire).link == Handshaking
    ensures !Apply(v, Init(), TimerFire).connected
    ensures Run(v, Init(), [TimerFire, Open]).connected
  {
    assert Run(v, Init(), [TimerFire, Open]) == Run(v, Apply(v, Init(), TimerFire), [Open]);
  }

  /** Only the open event of a socket sets the connected flag: no frame,
      close, error, timer or tick connects a disconnected tracker. */
  lemma OnlyOpenConnects(v: Variant, s: State, e: Event)
    requires !s.connected && Apply(v, s, e).connected
    ensures e.Open? && s.link.Handshaking?
  {
  }

  /** The drain interval does nothing while disconnected. */
  lemma TickNeedsConnection(v: Variant, s: State)
    requires !s.connected
    ensures Apply(v, s, Tick) == s
  {
  }

  /** Connection events leave the job's progress alone: queue, message,
      indicator and milestones are exactly as before. */
  lemma ConnectionEventsKeepProgress(v: Variant, s: State, e: Event)
    requires e.Open? || e.Close? || e.SocketError? || e.TimerFire?
    ensures Apply(v, s, e).queue == s.queue
    ensures Apply(v, s, e).message == s.message
    ensures Apply(v, s, e).indicator == s.indicator
    ensures Apply(v, s, e).steps == s.steps
  {
  }

  /** `n` drop-and-reconnect cycles. */
  function Reconnects(n: nat): (es: seq<Event>)
    ensures |es| == 3 * n
  {
    if n == 0 then [] else [Close, TimerFire, Open] + Reconnects(n - 1)
  }

  /** Running two event sequences one after the other is running their
      concatenation. */
  lemma {:induction false} RunAppend(v: Variant, s: State, a: seq<Event>, b: seq<Event>)
    ensures Run(v, s, a + b) == Run(v, Run(v, s, a), b)
    decreases |a|
  {
    if a == [] {
      assert a + b == b;
    } else {
      assert (a + b)[0] == a[0];
      assert (a + b)[1..] == a[1..] + b;
      RunAppend(v, Apply(v, s, a[0]), a[1..], b);
    }
  }

  /** There is no retry limit: after any number of drops the tracker is
      connected again once the timer fires and the socket opens, and the
      drops changed none of its progress. */
  lemma {:induction false} ReconnectsForever(v: Variant, s: State, n: nat)
    requires s.link.Live? && s.connected
    ensures Run(v, s, Reconnects(n)).connected
    ensures Run(v, s, Reconnects(n)).link == Live
    ensures Run(v, s, Reconnects(n)).(connected := s.connected, link := s.link) == s
  {
    if n > 0 {
      var once := Run(v, s, [Close, TimerFire, Open]);
      assert Run(v, s, [Close]) == OnClose(s);
      assert once == OnOpen(OnTimer(OnClose(s)));
      RunAppend(v, s, [Close, TimerFire, Open], Reconnects(n - 1));
      ReconnectsForever(v, once, n - 1);
    }
  }

  /** The initial state is valid. */
  lemma InitValid()
    ensures Valid(Init())
    ensures ProgressPercent(Init()) == 0
  {
  }

  /** Matching against a catalog only ever adds one of its labels. */
  lemma ReachedWithin(steps: seq<string>, catalog: seq<Step>, msg: string, labels: set<string>)
    requires Elems(steps) <= labels
    requires Elems(Labels(catalog)) <= labels
    ensures Elems(Reached(steps, catalog, msg)) <= labels
  {
    match Find(catalog, msg)
    case None =>
    case Some(k) =>
      assert Labels(catalog)[k] == catalog[k].labelText;
      assert catalog[k].labelText in Elems(Labels(catalog));
  }

  /** Milestones recorded by either catalog are labels of the shared label list. */
  lemma ReachedLabels(steps: seq<string>, catalog: seq<Step>, msg: string)
    requires catalog == ProviderSteps || catalog == StandaloneSteps
    requires Elems(steps) <= Elems(Labels(ProviderSteps))
    ensures Elems(Reached(steps, catalog, msg)) <= Elems(Labels(ProviderSteps))
  {
    CatalogsAgreeExceptNinth();
    assert Labels(catalog) == Labels(ProviderSteps);
    ReachedWithin(steps, catalog, msg, Elems(Labels(ProviderSteps)));
  }

  /** The context provider's drain interval touches only the job's fields
      and always records the milestone of the dequeued message. */
  lemma ProviderTickShape(s: State)
    requires s.queue != []
    ensures ProviderTick(s).connected == s.connected
    ensures ProviderTick(s).link == s.link
    ensures ProviderTick(s).steps == Reached(s.steps, ProviderSteps, s.queue[0])
  {
  }

  /** The standalone drain interval touches only the job's fields and either
      keeps the milestone list or records the dequeued message's milestone. */
  lemma StandaloneTickShape(s: State)
    requires s.queue != []
    ensures StandaloneTick(s).connected == s.connected
    ensures StandaloneTick(s).link == s.link
    ensures StandaloneTick(s).steps == s.steps
         || StandaloneTick(s).steps == Reached(s.steps, StandaloneSteps, s.queue[0])
  {
  }

  /** A firing of the drain interval keeps the invariant and only extends the
      milestone list, by at most one label. */
  lemma TickValid(v: Variant, s: State)
    requires Valid(s)
    ensures Valid(Apply(v, s, Tick))
    ensures IsPrefix(s.steps, Apply(v, s, Tick).steps)
    ensures |Apply(v, s, Tick).steps| <= |s.steps| + 1
  {
    if s.connected && s.queue != [] {
      if v.Provider? {
        assert Apply(v, s, Tick) == ProviderTick(s);
        ProviderTickShape(s);
        ReachedLabels(s.steps, ProviderSteps, s.queue[0]);
      } else {
        assert Apply(v, s, Tick) == StandaloneTick(s);
        StandaloneTickShape(s);
        ReachedLabels(s.steps, StandaloneSteps, s.queue[0]);
      }
    }
  }

  /** Every event keeps the invariant and only extends the milestone list,
      by at most one label. */
  lemma StepValid(v: Variant, s: State, e: Event)
    requires Valid(s)
    ensures Valid(Apply(v, s, e))
    ensures IsPrefix(s.steps, Apply(v, s, e).steps)
    ensures |Apply(v, s, e).steps| <= |s.steps| + 1
  {
    if e.Tick? {
      TickValid(v, s);
    } else {
      assert Apply(v, s, e).steps == s.steps;
    }
  }

  /** Over any sequence of events the invariant holds and the milestone list
      only grows: labels are never removed, reordered or repeated. */
  lemma {:induction false} RunValid(v: Variant, s: State, es: seq<Event>)
    requires Valid(s)
    ensures Valid(Run(v, s, es))
    ensures IsPrefix(s.steps, Run(v, s, es).steps)
    decreases |es|
  {
    if es != [] {
      var next := Apply(v, s, es[0]);
      StepValid(v, s, es[0]);
      RunValid(v, next, es[1..]);
      PrefixTrans(s.steps, next.steps, Run(v, next, es[1..]).steps);
    }
  }

  /** The estimate lies in [0, 100], and in a valid state it is 100 exactly
      when every catalog label has been reached. */
  lemma PercentBounds(s: State)
    requires Valid(s)
    ensures 0 <= ProgressPercent(s) <= 100
    ensures |s.steps| <= TotalSteps
    ensures ProgressPercent(s) == 100 <==> Elems(s.steps) == Elems(Labels(ProviderSteps))
  {
    CatalogsAgreeExceptNinth();
    LabelsDistinct();
    DistinctSubsetLength(s.steps, Labels(ProviderSteps));
    DistinctSubsetFull(s.steps, Labels(ProviderSteps));
    PercentFullIff(|s.steps|);
  }

  /** From any valid state the estimate never falls and stays within 100. */
  lemma PercentNeverFalls(v: Variant, s: State, es: seq<Event>)
    requires Valid(s)
    ensures ProgressPercent(s) <= ProgressPercent(Run(v, s, es)) <= 100
  {
    RunValid(v, s, es);
    PercentMonotone(|s.steps|, |Run(v, s, es).steps|);
  }
}
