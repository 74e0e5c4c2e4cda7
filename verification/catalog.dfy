/**
 The milestone catalog (`IMPORTANT_STEPS`), the first-match lookup over it,
 and the completion percentage derived from the number of milestones reached.
 Both tracker variants carry their own copy of the catalog; the copies differ
 only in the text that reveals the ninth milestone.
 */
module Catalog {
  import opened Text
  import opened Seqs

  datatype Option<T> = None | Some(value: T)

  /** One milestone: an identifier, the text whose presence in a message
      reveals it, and the label shown for it. */
  datatype Step = Step(id: string, matchText: string, labelText: string)

  /** The context provider's catalog. */
  const ProviderSteps: seq<Step> := [
    Step("1", "Here we go", "Initiate"),
    Step("2", "Setting up our filing system", "File Setup"),
    Step("3", "Copying your file to work on", "Copy"),
    Step("4", "Finding out about your file", "Inspect"),
    Step("5", "Ok, had a look", "Analyze"),
    Step("6", "Pass number", "Sync Passses"),
    Step("7", "Adjusting the streams in your file", "Adjust"),
    Step("8", "Making the final shift", "Final Shift"),
    Step("9", "orange", "Complete")
  ]

  /** The standalone component's catalog. */
  const StandaloneSteps: seq<Step> := [
    Step("1", "Here we go", "Initiate"),
    Step("2", "Setting up our filing system", "File Setup"),
    Step("3", "Copying your file to work on", "Copy"),
    Step("4", "Finding out about your file", "Inspect"),
    Step("5", "Ok, had a look", "Analyze"),
    Step("6", "Pass number", "Sync Passses"),
    Step("7", "Adjusting the streams in your file", "Adjust"),
    Step("8", "Making the final shift", "Final Shift"),
    Step("9", "download your file", "Complete")
  ]

  /** `IMPORTANT_STEPS.length`, the same in both variants. */
  const TotalSteps: nat := 9

  /** The step's text occurs in the message, ignoring ASCII case. */
  predicate StepMatches(step: Step, msg: string): (b: bool)
    ensures b ==> |step.matchText| <= |msg|
  {
    Contains(Lower(msg), Lower(step.matchText))
  }

  /** `IMPORTANT_STEPS.find(...)` from index `from` on: the position of the
      first step whose text occurs in the message. */
  function FindFrom(steps: seq<Step>, msg: string, from: nat): (r: Option<nat>)
    requires from <= |steps|
    ensures r.Some? ==> from <= r.value < |steps| && StepMatches(steps[r.value], msg)
    ensures r.Some? ==> forall k :: from <= k < r.value ==> !StepMatches(steps[k], msg)
    ensures r.None? ==> forall k :: from <= k < |steps| ==> !StepMatches(steps[k], msg)
    decreases |steps| - from
  {
    if from == |steps| then None
    else if StepMatches(steps[from], msg) then Some(from)
    else FindFrom(steps, msg, from + 1)
  }

  /** The position of the first step of the catalog that the message reveals;
      `None` when it reveals none. */
  function Find(steps: seq<Step>, msg: string): (r: Option<nat>)
    ensures r.Some? ==> r.value < |steps| && StepMatches(steps[r.value], msg)
    ensures r.Some? ==> forall k :: 0 <= k < r.value ==> !StepMatches(steps[k], msg)
    ensures r.None? <==> forall k :: 0 <= k < |steps| ==> !StepMatches(steps[k], msg)
  {
    FindFrom(steps, msg, 0)
  }

  /** The labels of a catalog, in catalog order. */
  function Labels(steps: seq<Step>): (r: seq<string>)
    ensures |r| == |steps|
    ensures forall k :: 0 <= k < |steps| ==> r[k] == steps[k].labelText
  {
    seq(|steps|, k requires 0 <= k < |steps| => steps[k].labelText)
  }

  /** `Math.min(100, Math.round(count / TotalSteps * 100))` in integer
      arithmetic: round-half-up of 100 * count / 9, capped at 100. */
  function Percent(count: nat): (p: nat)
    ensures p <= 100
    ensures count <= TotalSteps ==>
      2 * TotalSteps * p <= 200 * count + TotalSteps < 2 * TotalSteps * (p + 1)
    ensures count >= TotalSteps ==> p == 100
  {
    var rounded := (200 * count + TotalSteps) / (2 * TotalSteps);
    if rounded < 100 then rounded else 100
  }

  /** The estimate never falls when more milestones are reached. */
  lemma PercentMonotone(a: nat, b: nat)
    requires a <= b
    ensures Percent(a) <= Percent(b)
  {
  }

  /** Among the counts a catalog of nine labels allows, only the full count
      shows 100 percent. */
  lemma PercentFullIff(count: nat)
    requires count <= TotalSteps
    ensures Percent(count) == 100 <==> count == TotalSteps
  {
  }

  /** The two catalogs: nine steps each, the same identifiers and labels,
      and the same texts except for the ninth step's. */
  lemma CatalogsAgreeExceptNinth()
    ensures |ProviderSteps| == |StandaloneSteps| == TotalSteps
    ensures Labels(ProviderSteps) == Labels(StandaloneSteps)
    ensures forall k :: 0 <= k < 8 ==> ProviderSteps[k] == StandaloneSteps[k]
    ensures ProviderSteps[8].matchText == "orange"
    ensures StandaloneSteps[8].matchText == "download your file"
  {
  }

  /** The two catalogs share their first eight steps. */
  lemma SharedSteps()
    ensures forall k :: 0 <= k < 8 ==> ProviderSteps[k] == StandaloneSteps[k]
  {
  }

  /** The two catalogs give every step the same label. */
  lemma SameLabels()
    ensures |ProviderSteps| == |StandaloneSteps|
    ensures forall k :: 0 <= k < |ProviderSteps| ==> ProviderSteps[k].labelText == StandaloneSteps[k].labelText
  {
  }

  /** No label appears twice in either catalog. */
  lemma LabelsDistinct()
    ensures NoDuplicates(Labels(ProviderSteps))
    ensures NoDuplicates(Labels(StandaloneSteps))
  {
    CatalogsAgreeExceptNinth();
    var ls := Labels(ProviderSteps);
    assert ls == ["Initiate", "File Setup", "Copy", "Inspect", "Analyze",
                  "Sync Passses", "Adjust", "Final Shift", "Complete"];
  }

  /** Every step is revealed by a message made of its own text. */
  lemma StepMatchesOwnText(step: Step)
    ensures StepMatches(step, step.matchText)
  {
    ContainsSelf(Lower(step.matchText));
  }

  /** Two catalogs that agree on their first `n` steps give the same answer
      for every message whose first revealed step lies among them. */
  lemma FindAgreeOnPrefix(a: seq<Step>, b: seq<Step>, msg: string, n: nat)
    requires n <= |a| && n <= |b|
    requires forall k :: 0 <= k < n ==> a[k] == b[k]
    requires Find(a, msg).Some? && Find(a, msg).value < n
    ensures Find(b, msg) == Find(a, msg)
  {
    var i := Find(a, msg).value;
    assert StepMatches(b[i], msg);
    var r := Find(b, msg);
    assert r.Some?;
  }

  /** `Find` answers `i` exactly when step `i` is revealed and no earlier one is. */
  lemma FindIs(steps: seq<Step>, msg: string, i: nat)
    requires i < |steps| && StepMatches(steps[i], msg)
    requires forall k :: 0 <= k < i ==> !StepMatches(steps[k], msg)
    ensures Find(steps, msg) == Some(i)
  {
  }
}
