/**
 A processing log that announces every milestone in catalog order: each
 text is delivered as a frame and drained by one tick.  Both variants then
 list every label in catalog order and report 100 percent.
 */
module Walk {
  import opened Seqs
  import opened Classifier
  import opened Catalog
  import opened Tracker
  import opened Progress
  import opened Phrases

  /** Each message arrives as a frame and is drained by the next tick. */
  function Feed(msgs: seq<string>): (es: seq<Event>)
    ensures |es| == 2 * |msgs|
  {
    if msgs == [] then [] else [Frame(msgs[0]), Tick] + Feed(msgs[1..])
  }

  /** The texts of a catalog, in catalog order. */
  function Texts(steps: seq<Step>): (r: seq<string>)
    ensures |r| == |steps|
    ensures forall k :: 0 <= k < |steps| ==> r[k] == steps[k].matchText
  {
    seq(|steps|, k requires 0 <= k < |steps| => steps[k].matchText)
  }

  lemma {:induction false} FeedAppend(a: seq<string>, b: seq<string>)
    ensures Feed(a + b) == Feed(a) + Feed(b)
    decreases |a|
  {
    if a == [] {
      assert a + b == b;
    } else {
      assert (a + b)[0] == a[0];
      assert (a + b)[1..] == a[1..] + b;
      FeedAppend(a[1..], b);
    }
  }

  /** With the socket open and the queue drained, a message that is not a
      failure is shown, leaves the queue empty and records its milestone. */
  lemma FeedOne(v: Variant, s: State, m: string)
    requires s.connected && s.queue == []
    requires !IsFailure(m)
    ensures Run(v, s, [Frame(m), Tick]).queue == []
    ensures Run(v, s, [Frame(m), Tick]).message == m
    ensures Run(v, s, [Frame(m), Tick]).connected
    ensures Run(v, s, [Frame(m), Tick]).link == s.link
    ensures Run(v, s, [Frame(m), Tick]).steps == Reached(s.steps, StepsOf(v), m)
  {
    var s1 := Apply(v, s, Frame(m));
    assert s1 == s.(queue := [m]);
    assert Run(v, s, [Frame(m), Tick]) == Run(v, s1, [Tick]);
    assert Run(v, s1, [Tick]) == Apply(v, s1, Tick);
    if v.Provider? {
      assert StepsOf(v) == ProviderSteps;
    } else {
      assert StepsOf(v) == StandaloneSteps;
    }
  }

  /** The `n`-th catalog text is not a failure and reveals its own step first. */
  lemma TextRevealsItself(v: Variant, n: nat)
    requires n < |StepsOf(v)|
    ensures !IsFailure(StepsOf(v)[n].matchText)
    ensures Find(StepsOf(v), StepsOf(v)[n].matchText) == Some(n)
  {
    if v.Provider? {
      assert StepsOf(v) == ProviderSteps;
      ProviderTextRevealsItself(n);
    } else {
      assert StepsOf(v) == StandaloneSteps;
      StandaloneTextRevealsItself(n);
    }
  }

  /** The standalone catalog shares the provider's first eight texts; its
      ninth, "download your file", reveals only itself. */
  lemma StandaloneTextRevealsItself(n: nat)
    requires n < |StandaloneSteps|
    ensures !IsFailure(StandaloneSteps[n].matchText)
    ensures Find(StandaloneSteps, StandaloneSteps[n].matchText) == Some(n)
  {
    if n < 8 {
      ProviderTextRevealsItself(n);
      SharedSteps();
      FindAgreeOnPrefix(ProviderSteps, StandaloneSteps, ProviderSteps[n].matchText, 8);
    } else {
      DownloadClass();
      FindDownloadInStandaloneSteps();
    }
  }

  lemma ProviderTextRevealsItself(n: nat)
    requires n < |ProviderSteps|
    ensures !IsFailure(ProviderSteps[n].matchText)
    ensures Find(ProviderSteps, ProviderSteps[n].matchText) == Some(n)
  {
    if n == 0 {
      ProviderText1RevealsItself();
    } else if n == 1 {
      ProviderText2RevealsItself();
    } else if n == 2 {
      ProviderText3RevealsItself();
    } else if n == 3 {
      ProviderText4RevealsItself();
    } else if n == 4 {
      ProviderText5RevealsItself();
    } else if n == 5 {
      ProviderText6RevealsItself();
    } else if n == 6 {
      ProviderText7RevealsItself();
    } else if n == 7 {
      ProviderText8RevealsItself();
    } else {
      ProviderText9RevealsItself();
    }
  }

  lemma ProviderText1RevealsItself()
    ensures !IsFailure(ProviderSteps[0].matchText)
    ensures Find(ProviderSteps, ProviderSteps[0].matchText) == Some(0)
  {
    HereWeGoClass();
    FindHereWeGoInProviderSteps();
  }

  lemma ProviderText2RevealsItself()
    ensures !IsFailure(ProviderSteps[1].matchText)
    ensures Find(ProviderSteps, ProviderSteps[1].matchText) == Some(1)
  {
    SettingUpClass();
    FindSettingUpInProviderSteps();
  }

  lemma ProviderText3RevealsItself()
    ensures !IsFailure(ProviderSteps[2].matchText)
    ensures Find(ProviderSteps, ProviderSteps[2].matchText) == Some(2)
  {
    CopyingClass();
    FindCopyingInProviderSteps();
  }

  lemma ProviderText4RevealsItself()
    ensures !IsFailure(ProviderSteps[3].matchText)
    ensures Find(ProviderSteps, ProviderSteps[3].matchText) == Some(3)
  {
    FindingOutClass();
    FindFindingOutInProviderSteps();
  }

  lemma ProviderText5RevealsItself()
    ensures !IsFailure(ProviderSteps[4].matchText)
    ensures Find(ProviderSteps, ProviderSteps[4].matchText) == Some(4)
  {
    HadALookClass();
    FindHadALookInProviderSteps();
  }

  lemma ProviderText6RevealsItself()
    ensures !IsFailure(ProviderSteps[5].matchText)
    ensures Find(ProviderSteps, ProviderSteps[5].matchText) == Some(5)
  {
    PassNumberClass();
    FindPassNumberInProviderSteps();
  }

  lemma ProviderText7RevealsItself()
    ensures !IsFailure(ProviderSteps[6].matchText)
    ensures Find(ProviderSteps, ProviderSteps[6].matchText) == Some(6)
  {
    AdjustingClass();
    FindAdjustingInProviderSteps();
  }

  lemma ProviderText8RevealsItself()
    ensures !IsFailure(ProviderSteps[7].matchText)
    ensures Find(ProviderSteps, ProviderSteps[7].matchText) == Some(7)
  {
    FinalShiftClass();
    FindFinalShiftInProviderSteps();
  }

  lemma ProviderText9RevealsItself()
    ensures !IsFailure(ProviderSteps[8].matchText)
    ensures Find(ProviderSteps, ProviderSteps[8].matchText) == Some(8)
  {
    OrangeClass();
    FindOrangeInProviderSteps();
  }

  /** Matching the `n`-th text after the first `n` labels appends the
      `n`-th label, when that text reveals its own step first. */
  lemma ReachedNext(catalog: seq<Step>, n: nat)
    requires n < |catalog|
    requires NoDuplicates(Labels(catalog))
    requires Find(catalog, catalog[n].matchText) == Some(n)
    ensures Reached(Labels(catalog)[..n], catalog, catalog[n].matchText) == Labels(catalog)[..n + 1]
  {
    var labels := Labels(catalog);
    assert labels[n] !in labels[..n];
    assert labels[..n + 1] == labels[..n] + [labels[n]];
  }

  /** Neither catalog repeats a label. */
  lemma LabelsDistinctOf(v: Variant)
    ensures NoDuplicates(Labels(StepsOf(v)))
  {
    LabelsDistinct();
    if v.Provider? {
      assert StepsOf(v) == ProviderSteps;
    } else {
      assert StepsOf(v) == StandaloneSteps;
    }
  }

  /** Feeding one more message runs its frame and tick after the others. */
  lemma FeedSnoc(v: Variant, s: State, msgs: seq<string>, m: string)
    ensures Run(v, s, Feed(msgs + [m])) == Run(v, Run(v, s, Feed(msgs)), [Frame(m), Tick])
  {
    FeedAppend(msgs, [m]);
    assert Feed([m]) == [Frame(m), Tick];
    RunAppend(v, s, Feed(msgs), [Frame(m), Tick]);
  }

  /** The `k`-th text of a catalog is not a failure and reveals its own step
      first. */
  predicate RevealsItself(catalog: seq<Step>, k: nat)
    requires k < |catalog|
  {
    !IsFailure(catalog[k].matchText) && Find(catalog, catalog[k].matchText) == Some(k)
  }

  /** After the first `n` texts the milestone list is the first `n` labels. */
  lemma {:induction false} WalkPrefix(v: Variant, s: State, n: nat)
    requires n <= |StepsOf(v)|
    requires forall k :: 0 <= k < |StepsOf(v)| ==> RevealsItself(StepsOf(v), k)
    requires NoDuplicates(Labels(StepsOf(v)))
    requires s.connected && s.queue == [] && s.steps == []
    ensures Run(v, s, Feed(Texts(StepsOf(v))[..n])).steps == Labels(StepsOf(v))[..n]
    ensures Run(v, s, Feed(Texts(StepsOf(v))[..n])).queue == []
    ensures Run(v, s, Feed(Texts(StepsOf(v))[..n])).connected
  {
    var catalog := StepsOf(v);
    var texts := Texts(catalog);
    if n == 0 {
      assert texts[..0] == [];
      assert Labels(catalog)[..0] == [];
    } else {
      WalkPrefix(v, s, n - 1);
      var m := texts[n - 1];
      var before := Run(v, s, Feed(texts[..n - 1]));
      assert texts[..n] == texts[..n - 1] + [m];
      FeedSnoc(v, s, texts[..n - 1], m);
      assert RevealsItself(catalog, n - 1);
      FeedOne(v, before, m);
      ReachedNext(catalog, n - 1);
    }
  }

  /** The state once the first timer has fired and the socket has opened. */
  function Connected(): (s: State)
    ensures Valid(s) && s.connected && s.queue == [] && s.steps == []
  {
    Init().(link := Live, connected := true)
  }

  /** A session: the first timer fires, the socket opens, and each message
      arrives and is drained by the next tick. */
  function Session(msgs: seq<string>): seq<Event> {
    [TimerFire, Open] + Feed(msgs)
  }

  /** A session runs its messages from the connected state. */
  lemma SessionStart(v: Variant, msgs: seq<string>)
    ensures Run(v, Init(), Session(msgs)) == Run(v, Connected(), Feed(msgs))
  {
    assert Run(v, Init(), [TimerFire, Open]) == Connected();
    RunAppend(v, Init(), [TimerFire, Open], Feed(msgs));
  }

  /** While connected, the first message of a feed is queued and then
      drained by its tick before the rest arrive. */
  lemma FeedStep(v: Variant, s: State, msgs: seq<string>)
    requires s.connected && msgs != []
    ensures Run(v, s, Feed(msgs)) == Run(v, Apply(v, OnFrame(s, msgs[0]), Tick), Feed(msgs[1..]))
  {
    assert Feed(msgs) == [Frame(msgs[0]), Tick] + Feed(msgs[1..]);
    RunAppend(v, s, [Frame(msgs[0]), Tick], Feed(msgs[1..]));
  }

  /** While connected, feeding one message queues it and drains it. */
  lemma FeedSingle(v: Variant, s: State, m: string)
    requires s.connected
    ensures Run(v, s, Feed([m])) == Drain(v, OnFrame(s, m))
  {
    assert Feed([m]) == [Frame(m), Tick];
    var queued := Apply(v, s, Frame(m));
    assert Run(v, s, [Frame(m), Tick]) == Run(v, queued, [Tick]);
    assert Run(v, queued, [Tick]) == Apply(v, queued, Tick);
  }

  /** A one-message session is one tick on the connected state holding
      that message. */
  lemma OneMessage(v: Variant, m: string)
    ensures Run(v, Init(), Session([m])) == Drain(v, Connected().(queue := [m]))
  {
    SessionStart(v, [m]);
    FeedSingle(v, Connected(), m);
    assert OnFrame(Connected(), m) == Connected().(queue := [m]);
  }

  /** A two-message session is two such ticks, the second message arriving
      after the first tick. */
  lemma TwoMessages(v: Variant, m1: string, m2: string)
    ensures Run(v, Init(), Session([m1, m2]))
         == Drain(v, OnFrame(Drain(v, Connected().(queue := [m1])), m2))
  {
    var msgs := [m1, m2];
    SessionStart(v, msgs);
    FeedStep(v, Connected(), msgs);
    assert OnFrame(Connected(), msgs[0]) == Connected().(queue := [m1]);
    var first := Apply(v, Connected().(queue := [m1]), Tick);
    assert first.connected;
    assert msgs[1..] == [m2];
    FeedStep(v, first, [m2]);
    assert Feed([m2][1..]) == [];
    assert first == Drain(v, Connected().(queue := [m1]));
    var second := Apply(v, OnFrame(first, m2), Tick);
    assert Run(v, second, []) == second;
  }

  /** `k` firings of the drain interval. */
  function Ticks(k: nat): (es: seq<Event>)
    ensures |es| == k && forall i :: 0 <= i < k ==> es[i] == Tick
  {
    seq(k, i => Tick)
  }

  /** While connected, a tick over a message that is not a failure shows it
      and passes the rest of the queue on, in either variant. */
  lemma TickPassesOn(v: Variant, s: State)
    requires s.connected && s.queue != [] && !IsFailure(s.queue[0])
    ensures Apply(v, s, Tick).queue == s.queue[1..]
    ensures Apply(v, s, Tick).message == s.queue[0]
    ensures Apply(v, s, Tick).connected
  {
    if v.Provider? {
      assert Apply(v, s, Tick) == ProviderTick(s);
    } else {
      assert Apply(v, s, Tick) == StandaloneTick(s);
    }
  }

  /** The queue is first in, first out: while connected, `k` ticks over
      messages none of which is a failure show them in arrival order and
      leave the rest of the queue in order. */
  lemma {:induction false} DrainInOrder(v: Variant, s: State, k: nat)
    requires s.connected && k <= |s.queue|
    requires forall i :: 0 <= i < k ==> !IsFailure(s.queue[i])
    ensures Run(v, s, Ticks(k)).queue == s.queue[k..]
    ensures k > 0 ==> Run(v, s, Ticks(k)).message == s.queue[k - 1]
    ensures Run(v, s, Ticks(k)).connected
    decreases k
  {
    if k > 0 {
      var next := Apply(v, s, Tick);
      TickPassesOn(v, s);
      assert Ticks(k)[1..] == Ticks(k - 1);
      DrainInOrder(v, next, k - 1);
      if k > 1 {
        assert next.queue[k - 2] == s.queue[k - 1];
      }
      assert next.queue[k - 1..] == s.queue[k..];
    }
  }

  /** Connecting and then feeding all nine texts in order lists every label
      in catalog order and shows 100 percent, in either variant. */
  lemma WalkReachesFull(v: Variant)
    ensures Run(v, Init(), Session(Texts(StepsOf(v)))).steps == Labels(StepsOf(v))
    ensures ProgressPercent(Run(v, Init(), Session(Texts(StepsOf(v))))) == 100
  {
    var texts := Texts(StepsOf(v));
    SessionStart(v, texts);
    CatalogsAgreeExceptNinth();
    forall k | 0 <= k < |StepsOf(v)|
      ensures RevealsItself(StepsOf(v), k)
    {
      TextRevealsItself(v, k);
    }
    LabelsDistinctOf(v);
    WalkPrefix(v, Connected(), TotalSteps);
    assert texts[..TotalSteps] == texts;
    assert Labels(StepsOf(v))[..TotalSteps] == Labels(StepsOf(v));
  }
}
