/**
 Concrete messages of a processing log and what the shared helpers make of
 them: their lower-cased forms, the phrases they hold, their classification,
 and the first catalog step each reveals.  The scenarios of both tracker
 variants rest on these facts.
 */
module Phrases {
  import opened Text
  import opened Patterns
  import opened Classifier
  import opened Catalog

  /** A step whose lower-cased text does not occur in the lower-cased
      message is not revealed by it. */
  lemma MissByText(step: Step, msg: string, lowered: string, text: string)
    requires Lower(msg) == lowered && Lower(step.matchText) == text
    requires !Contains(lowered, text)
    ensures !StepMatches(step, msg)
  {
  }

  /** A message shorter than a step's text does not reveal the step. */
  lemma MissByLength(step: Step, msg: string)
    requires |msg| < |step.matchText|
    ensures !StepMatches(step, msg)
  {
  }

  lemma LowerHereWeGo()
    ensures Lower("Here we go") == "here we go"
  {
  }

  lemma LowerSettingUp()
    ensures Lower("Setting up our filing system") == "setting up our filing system"
  {
  }

  lemma LowerCopying()
    ensures Lower("Copying your file to work on") == "copying your file to work on"
  {
  }

  lemma LowerFindingOut()
    ensures Lower("Finding out about your file") == "finding out about your file"
  {
  }

  lemma LowerHadALook()
    ensures Lower("Ok, had a look") == "ok, had a look"
  {
  }

  lemma LowerPassNumber()
    ensures Lower("Pass number") == "pass number"
  {
  }

  lemma LowerAdjusting()
    ensures Lower("Adjusting the streams in your file") == "adjusting the streams in your file"
  {
  }

  lemma LowerFinalShift()
    ensures Lower("Making the final shift") == "making the final shift"
  {
  }

  lemma LowerOrange()
    ensures Lower("orange") == "orange"
  {
  }

  lemma LowerDownload()
    ensures Lower("download your file") == "download your file"
  {
  }

  lemma LowerGetYourFile()
    ensures Lower("get your file") == "get your file"
  {
  }

  lemma LowerNoVideo()
    ensures Lower("no video") == "no video"
  {
  }

  lemma LowerHereWeGoError()
    ensures Lower("Here we go error") == "here we go error"
  {
  }

  /** Phrases the classifier looks for, in "setting up our filing system". */
  lemma SettingUpPhrasesA()
    ensures !Contains("setting up our filing system", "no video")
    ensures !Contains("setting up our filing system", "couldn't find any video stream")
    ensures !Contains("setting up our filing system", "couldnt find any video stream")
    ensures !Contains("setting up our filing system", "no audio")
  {
    NotContainsByChar("setting up our filing system", "no video", 3);
    NotContainsByChar("setting up our filing system", "no audio", 3);
  }

  /** Phrases the classifier looks for, in "setting up our filing system". */
  lemma SettingUpPhrasesB()
    ensures !Contains("setting up our filing system", "error")
    ensures !Contains("setting up our filing system", "aborting process")
  {
    NotContainsByPair("setting up our filing system", "error", 0);
    NotContainsByChar("setting up our filing system", "aborting process", 0);
  }

  /** "Setting up our filing system" is not a failure. */
  lemma SettingUpClass()
    ensures !IsFailure("Setting up our filing system")
  {
    LowerSettingUp();
    SettingUpPhrasesA();
    SettingUpPhrasesB();
    FailureIff("Setting up our filing system");
  }

  /** Phrases the classifier looks for, in "copying your file to work on". */
  lemma CopyingPhrasesA()
    ensures !Contains("copying your file to work on", "no video")
    ensures !Contains("copying your file to work on", "couldn't find any video stream")
    ensures !Contains("copying your file to work on", "couldnt find any video stream")
    ensures !Contains("copying your file to work on", "no audio")
  {
    NotContainsByChar("copying your file to work on", "no video", 3);
    NotContainsByChar("copying your file to work on", "no audio", 3);
  }

  /** Phrases the classifier looks for, in "copying your file to work on". */
  lemma CopyingPhrasesB()
    ensures !Contains("copying your file to work on", "error")
    ensures !Contains("copying your file to work on", "aborting process")
  {
    NotContainsByPair("copying your file to work on", "error", 0);
    NotContainsByChar("copying your file to work on", "aborting process", 0);
  }

  /** "Copying your file to work on" is not a failure. */
  lemma CopyingClass()
    ensures !IsFailure("Copying your file to work on")
  {
    LowerCopying();
    CopyingPhrasesA();
    CopyingPhrasesB();
    FailureIff("Copying your file to work on");
  }

  /** Phrases the classifier looks for, in "finding out about your file". */
  lemma FindingOutPhrasesA()
    ensures !Contains("finding out about your file", "no video")
    ensures !Contains("finding out about your file", "couldn't find any video stream")
    ensures !Contains("finding out about your file", "couldnt find any video stream")
    ensures !Contains("finding out about your file", "no audio")
  {
    NotContainsByChar("finding out about your file", "no video", 3);
    NotContainsByPair("finding out about your file", "no audio", 0);
  }

  /** Phrases the classifier looks for, in "finding out about your file". */
  lemma FindingOutPhrasesB()
    ensures !Contains("finding out about your file", "error")
    ensures !Contains("finding out about your file", "aborting process")
  {
    NotContainsByPair("finding out about your file", "error", 0);
    NotContainsByChar("finding out about your file", "aborting process", 9);
  }

  /** "Finding out about your file" is not a failure. */
  lemma FindingOutClass()
    ensures !IsFailure("Finding out about your file")
  {
    LowerFindingOut();
    FindingOutPhrasesA();
    FindingOutPhrasesB();
    FailureIff("Finding out about your file");
  }

  /** Phrases the classifier looks for, in "ok, had a look". */
  lemma HadALookPhrasesA()
    ensures !Contains("ok, had a look", "no video")
    ensures !Contains("ok, had a look", "couldn't find any video stream")
    ensures !Contains("ok, had a look", "couldnt find any video stream")
    ensures !Contains("ok, had a look", "no audio")
  {
    NotContainsByChar("ok, had a look", "no video", 0);
    NotContainsByChar("ok, had a look", "no audio", 0);
  }

  /** Phrases the classifier looks for, in "ok, had a look". */
  lemma HadALookPhrasesB()
    ensures !Contains("ok, had a look", "error")
    ensures !Contains("ok, had a look", "aborting process")
  {
    NotContainsByChar("ok, had a look", "error", 0);
  }

  /** "Ok, had a look" is not a failure. */
  lemma HadALookClass()
    ensures !IsFailure("Ok, had a look")
  {
    LowerHadALook();
    HadALookPhrasesA();
    HadALookPhrasesB();
    FailureIff("Ok, had a look");
  }

  /** Phrases the classifier looks for, in "adjusting the streams in your file". */
  lemma AdjustingPhrasesA()
    ensures !Contains("adjusting the streams in your file", "no video")
    ensures !Contains("adjusting the streams in your file", "couldn't find any video stream")
    ensures !Contains("adjusting the streams in your file", "couldnt find any video stream")
    ensures !Contains("adjusting the streams in your file", "no audio")
  {
    NotContainsByChar("adjusting the streams in your file", "no video", 3);
    NotContainsByChar("adjusting the streams in your file", "couldn't find any video stream", 0);
    NotContainsByChar("adjusting the streams in your file", "couldnt find any video stream", 0);
    NotContainsByPair("adjusting the streams in your file", "no audio", 0);
  }

  /** Phrases the classifier looks for, in "adjusting the streams in your file". */
  lemma AdjustingPhrasesB()
    ensures !Contains("adjusting the streams in your file", "error")
    ensures !Contains("adjusting the streams in your file", "aborting process")
  {
    NotContainsByPair("adjusting the streams in your file", "error", 0);
    NotContainsByChar("adjusting the streams in your file", "aborting process", 1);
  }

  /** "Adjusting the streams in your file" is not a failure. */
  lemma AdjustingClass()
    ensures !IsFailure("Adjusting the streams in your file")
  {
    LowerAdjusting();
    AdjustingPhrasesA();
    AdjustingPhrasesB();
    FailureIff("Adjusting the streams in your file");
  }

  /** Phrases the classifier looks for, in "making the final shift". */
  lemma FinalShiftPhrasesA()
    ensures !Contains("making the final shift", "no video")
    ensures !Contains("making the final shift", "couldn't find any video stream")
    ensures !Contains("making the final shift", "couldnt find any video stream")
    ensures !Contains("making the final shift", "no audio")
  {
    NotContainsByChar("making the final shift", "no video", 1);
    NotContainsByChar("making the final shift", "no audio", 1);
  }

  /** Phrases the classifier looks for, in "making the final shift". */
  lemma FinalShiftPhrasesB()
    ensures !Contains("making the final shift", "error")
    ensures !Contains("making the final shift", "aborting process")
  {
    NotContainsByChar("making the final shift", "error", 1);
    NotContainsByChar("making the final shift", "aborting process", 1);
  }

  /** "Making the final shift" is not a failure. */
  lemma FinalShiftClass()
    ensures !IsFailure("Making the final shift")
  {
    LowerFinalShift();
    FinalShiftPhrasesA();
    FinalShiftPhrasesB();
    FailureIff("Making the final shift");
  }

  /** Phrases the classifier looks for, in "orange". */
  lemma OrangePhrasesA()
    ensures !Contains("orange", "no video")
    ensures !Contains("orange", "couldn't find any video stream")
    ensures !Contains("orange", "couldnt find any video stream")
    ensures !Contains("orange", "no audio")
  {
  }

  /** Phrases the classifier looks for, in "orange". */
  lemma OrangePhrasesB()
    ensures !Contains("orange", "error")
    ensures !Contains("orange", "aborting process")
  {
    NotContainsByPair("orange", "error", 0);
  }

  /** "orange" is not a failure. */
  lemma OrangeClass()
    ensures !IsFailure("orange")
  {
    LowerOrange();
    OrangePhrasesA();
    OrangePhrasesB();
    FailureIff("orange");
  }

  /** Phrases the classifier looks for, in "here we go". */
  lemma HereWeGoPhrasesA()
    ensures !Contains("here we go", "no video")
    ensures !Contains("here we go", "couldn't find any video stream")
    ensures !Contains("here we go", "couldnt find any video stream")
    ensures !Contains("here we go", "no audio")
  {
    NotContainsByChar("here we go", "no video", 0);
    NotContainsByChar("here we go", "no audio", 0);
  }

  /** Phrases the classifier looks for, in "here we go". */
  lemma HereWeGoPhrasesB()
    ensures !Contains("here we go", "error")
    ensures !Contains("here we go", "aborting process")
    ensures !Contains("here we go", "already")
    ensures !Contains("here we go", "get your file")
    ensures !Contains("here we go", "download your file")
  {
    NotContainsByPair("here we go", "error", 1);
    NotContainsByChar("here we go", "already", 0);
  }

  /** The greeting "Here we go" is neither a failure nor a success. */
  lemma HereWeGoClass()
    ensures !IsFailure("Here we go")
    ensures !IsProviderSuccess("Here we go")
    ensures !IsStandaloneSuccess("Here we go")
  {
    LowerHereWeGo();
    HereWeGoPhrasesA();
    HereWeGoPhrasesB();
    FailureIff("Here we go");
    ProviderSuccessNeedsPhrase("Here we go");
    StandaloneSuccessNeedsPhrase("Here we go");
  }

  /** Phrases the classifier looks for, in "pass number". */
  lemma PassNumberPhrasesA()
    ensures !Contains("pass number", "no video")
    ensures !Contains("pass number", "couldn't find any video stream")
    ensures !Contains("pass number", "couldnt find any video stream")
    ensures !Contains("pass number", "no audio")
  {
    NotContainsByChar("pass number", "no video", 1);
    NotContainsByChar("pass number", "no audio", 1);
  }

  /** Phrases the classifier looks for, in "pass number". */
  lemma PassNumberPhrasesB()
    ensures !Contains("pass number", "error")
    ensures !Contains("pass number", "aborting process")
    ensures !Contains("pass number", "already")
    ensures !Contains("pass number", "get your file")
    ensures !Contains("pass number", "download your file")
  {
    NotContainsByChar("pass number", "error", 3);
    NotContainsByChar("pass number", "already", 1);
  }

  /** A sync pass report is neither a failure nor a success. */
  lemma PassNumberClass()
    ensures !IsFailure("Pass number")
    ensures !IsProviderSuccess("Pass number")
    ensures !IsStandaloneSuccess("Pass number")
  {
    LowerPassNumber();
    PassNumberPhrasesA();
    PassNumberPhrasesB();
    FailureIff("Pass number");
    ProviderSuccessNeedsPhrase("Pass number");
    StandaloneSuccessNeedsPhrase("Pass number");
  }

  /** Phrases the classifier looks for, in "download your file". */
  lemma DownloadPhrasesA()
    ensures !Contains("download your file", "no video")
    ensures !Contains("download your file", "couldn't find any video stream")
    ensures !Contains("download your file", "couldnt find any video stream")
    ensures !Contains("download your file", "no audio")
  {
    NotContainsByChar("download your file", "no video", 3);
    NotContainsByPair("download your file", "no audio", 0);
  }

  /** Phrases the classifier looks for, in "download your file". */
  lemma DownloadPhrasesB()
    ensures !Contains("download your file", "error")
    ensures !Contains("download your file", "aborting process")
    ensures !Contains("download your file", "already")
    ensures !Contains("download your file", "get your file")
    ensures Contains("download your file", "download your file")
  {
    NotContainsByPair("download your file", "error", 0);
    NotContainsByChar("download your file", "aborting process", 1);
    NotContainsByPair("download your file", "already", 0);
    NotContainsByChar("download your file", "get your file", 0);
    ContainsAt("download your file", "download your file", 0);
  }

  /** "download your file" is a success only for the standalone component. */
  lemma DownloadClass()
    ensures !IsFailure("download your file")
    ensures !IsProviderSuccess("download your file")
    ensures IsStandaloneSuccess("download your file")
  {
    LowerDownload();
    DownloadPhrasesA();
    DownloadPhrasesB();
    FailureIff("download your file");
    ProviderSuccessNeedsPhrase("download your file");
    StandaloneSuccessIff("download your file");
    MatchesLiteralIff(Lower("download your file"), "download your file");
  }

  /** Phrases the classifier looks for, in "get your file". */
  lemma GetYourFilePhrasesA()
    ensures !Contains("get your file", "no video")
    ensures !Contains("get your file", "couldn't find any video stream")
    ensures !Contains("get your file", "couldnt find any video stream")
    ensures !Contains("get your file", "no audio")
  {
    NotContainsByChar("get your file", "no video", 0);
    NotContainsByChar("get your file", "no audio", 0);
  }

  /** Phrases the classifier looks for, in "get your file". */
  lemma GetYourFilePhrasesB()
    ensures !Contains("get your file", "error")
    ensures !Contains("get your file", "aborting process")
    ensures !Contains("get your file", "already")
    ensures Contains("get your file", "get your file")
    ensures !Contains("get your file", "download your file")
  {
    NotContainsByPair("get your file", "error", 0);
    NotContainsByChar("get your file", "already", 0);
    ContainsAt("get your file", "get your file", 0);
  }

  /** "get your file" is a success only for the context provider. */
  lemma GetYourFileClass()
    ensures !IsFailure("get your file")
    ensures IsProviderSuccess("get your file")
    ensures !IsStandaloneSuccess("get your file")
  {
    LowerGetYourFile();
    GetYourFilePhrasesA();
    GetYourFilePhrasesB();
    FailureIff("get your file");
    ProviderSuccessIff("get your file");
    MatchesLiteralIff(Lower("get your file"), "get your file");
    StandaloneSuccessNeedsPhrase("get your file");
  }

  /** Phrases the classifier looks for, in "no video". */
  lemma NoVideoPhrases()
    ensures Contains("no video", "no video")
  {
    ContainsAt("no video", "no video", 0);
  }

  /** "no video" is a failure. */
  lemma NoVideoClass()
    ensures IsFailure("no video")
  {
    LowerNoVideo();
    NoVideoPhrases();
    FailureIff("no video");
  }

  /** Phrases the classifier looks for, in "here we go error". */
  lemma HereWeGoErrorPhrases()
    ensures Contains("here we go error", "error")
  {
    ContainsAt("here we go error", "error", 11);
  }

  /** A greeting followed by "error" is a failure. */
  lemma HereWeGoErrorClass()
    ensures IsFailure("Here we go error")
  {
    LowerHereWeGoError();
    HereWeGoErrorPhrases();
    FailureIff("Here we go error");
  }

  /** "Here we go" reveals step 1 of the provider catalog and no earlier one. */
  lemma FindHereWeGoInProviderSteps()
    ensures Find(ProviderSteps, "Here we go") == Some(0)
  {
    LowerHereWeGo();
    ContainsAt("here we go", "here we go", 0);
    FindIs(ProviderSteps, "Here we go", 0);
  }

  /** Catalog texts that do not occur in "setting up our filing system". */
  lemma SettingUpLacksProvider1()
    ensures !Contains("setting up our filing system", "here we go")
  {
    NotContainsByChar("setting up our filing system", "here we go", 0);
  }

  /** "Setting up our filing system" reveals step 2 of the provider catalog and no earlier one. */
  lemma FindSettingUpInProviderSteps()
    ensures Find(ProviderSteps, "Setting up our filing system") == Some(1)
  {
    LowerSettingUp();
    SettingUpLacksProvider1();
    LowerHereWeGo();
    MissByText(ProviderSteps[0], "Setting up our filing system", "setting up our filing system", "here we go");
    ContainsAt("setting up our filing system", "setting up our filing system", 0);
    FindIs(ProviderSteps, "Setting up our filing system", 1);
  }

  /** Catalog texts that do not occur in "copying your file to work on". */
  lemma CopyingLacksProvider12()
    ensures !Contains("copying your file to work on", "here we go")
    ensures !Contains("copying your file to work on", "setting up our filing system")
  {
    NotContainsByChar("copying your file to work on", "here we go", 0);
    NotContainsByChar("copying your file to work on", "setting up our filing system", 0);
  }

  /** "Copying your file to work on" reveals step 3 of the provider catalog and no earlier one. */
  lemma FindCopyingInProviderSteps()
    ensures Find(ProviderSteps, "Copying your file to work on") == Some(2)
  {
    LowerCopying();
    CopyingLacksProvider12();
    LowerHereWeGo();
    MissByText(ProviderSteps[0], "Copying your file to work on", "copying your file to work on", "here we go");
    LowerSettingUp();
    MissByText(ProviderSteps[1], "Copying your file to work on", "copying your file to work on", "setting up our filing system");
    ContainsAt("copying your file to work on", "copying your file to work on", 0);
    FindIs(ProviderSteps, "Copying your file to work on", 2);
  }

  /** Catalog texts that do not occur in "finding out about your file". */
  lemma FindingOutLacksProvider1()
    ensures !Contains("finding out about your file", "here we go")
  {
    NotContainsByChar("finding out about your file", "here we go", 0);
  }

  /** "Finding out about your file" reveals step 4 of the provider catalog and no earlier one. */
  lemma FindFindingOutInProviderSteps()
    ensures Find(ProviderSteps, "Finding out about your file") == Some(3)
  {
    LowerFindingOut();
    FindingOutLacksProvider1();
    LowerHereWeGo();
    MissByText(ProviderSteps[0], "Finding out about your file", "finding out about your file", "here we go");
    MissByLength(ProviderSteps[1], "Finding out about your file");
    MissByLength(ProviderSteps[2], "Finding out about your file");
    ContainsAt("finding out about your file", "finding out about your file", 0);
    FindIs(ProviderSteps, "Finding out about your file", 3);
  }

  /** Catalog texts that do not occur in "ok, had a look". */
  lemma HadALookLacksProvider1()
    ensures !Contains("ok, had a look", "here we go")
  {
    NotContainsByChar("ok, had a look", "here we go", 1);
  }

  /** "Ok, had a look" reveals step 5 of the provider catalog and no earlier one. */
  lemma FindHadALookInProviderSteps()
    ensures Find(ProviderSteps, "Ok, had a look") == Some(4)
  {
    LowerHadALook();
    HadALookLacksProvider1();
    LowerHereWeGo();
    MissByText(ProviderSteps[0], "Ok, had a look", "ok, had a look", "here we go");
    MissByLength(ProviderSteps[1], "Ok, had a look");
    MissByLength(ProviderSteps[2], "Ok, had a look");
    MissByLength(ProviderSteps[3], "Ok, had a look");
    ContainsAt("ok, had a look", "ok, had a look", 0);
    FindIs(ProviderSteps, "Ok, had a look", 4);
  }

  /** Catalog texts that do not occur in "pass number". */
  lemma PassNumberLacksGreeting()
    ensures !Contains("pass number", "here we go")
  {
    NotContainsByChar("pass number", "here we go", 0);
  }

  /** "Pass number" reveals step 6 of the provider catalog and no earlier one. */
  lemma FindPassNumberInProviderSteps()
    ensures Find(ProviderSteps, "Pass number") == Some(5)
  {
    LowerPassNumber();
    PassNumberLacksGreeting();
    LowerHereWeGo();
    MissByText(ProviderSteps[0], "Pass number", "pass number", "here we go");
    MissByLength(ProviderSteps[1], "Pass number");
    MissByLength(ProviderSteps[2], "Pass number");
    MissByLength(ProviderSteps[3], "Pass number");
    MissByLength(ProviderSteps[4], "Pass number");
    ContainsAt("pass number", "pass number", 0);
    FindIs(ProviderSteps, "Pass number", 5);
  }

  /** Catalog texts that do not occur in "adjusting the streams in your file". */
  lemma AdjustingLacksProvider123()
    ensures !Contains("adjusting the streams in your file", "here we go")
    ensures !Contains("adjusting the streams in your file", "setting up our filing system")
    ensures !Contains("adjusting the streams in your file", "copying your file to work on")
  {
    NotContainsByChar("adjusting the streams in your file", "here we go", 5);
    NotContainsByChar("adjusting the streams in your file", "setting up our filing system", 9);
    NotContainsByChar("adjusting the streams in your file", "copying your file to work on", 0);
  }

  /** Catalog texts that do not occur in "adjusting the streams in your file". */
  lemma AdjustingLacksProvider456()
    ensures !Contains("adjusting the streams in your file", "finding out about your file")
    ensures !Contains("adjusting the streams in your file", "ok, had a look")
    ensures !Contains("adjusting the streams in your file", "pass number")
  {
    NotContainsByChar("adjusting the streams in your file", "finding out about your file", 13);
    NotContainsByChar("adjusting the streams in your file", "ok, had a look", 1);
    NotContainsByChar("adjusting the streams in your file", "pass number", 0);
  }

  /** "Adjusting the streams in your file" reveals step 7 of the provider catalog and no earlier one. */
  lemma FindAdjustingInProviderSteps()
    ensures Find(ProviderSteps, "Adjusting the streams in your file") == Some(6)
  {
    LowerAdjusting();
    AdjustingLacksProvider123();
    AdjustingLacksProvider456();
    LowerHereWeGo();
    MissByText(ProviderSteps[0], "Adjusting the streams in your file", "adjusting the streams in your file", "here we go");
    LowerSettingUp();
    MissByText(ProviderSteps[1], "Adjusting the streams in your file", "adjusting the streams in your file", "setting up our filing system");
    LowerCopying();
    MissByText(ProviderSteps[2], "Adjusting the streams in your file", "adjusting the streams in your file", "copying your file to work on");
    LowerFindingOut();
    MissByText(ProviderSteps[3], "Adjusting the streams in your file", "adjusting the streams in your file", "finding out about your file");
    LowerHadALook();
    MissByText(ProviderSteps[4], "Adjusting the streams in your file", "adjusting the streams in your file", "ok, had a look");
    LowerPassNumber();
    MissByText(ProviderSteps[5], "Adjusting the streams in your file", "adjusting the streams in your file", "pass number");
    ContainsAt("adjusting the streams in your file", "adjusting the streams in your file", 0);
    FindIs(ProviderSteps, "Adjusting the streams in your file", 6);
  }

  /** Catalog texts that do not occur in "making the final shift". */
  lemma FinalShiftLacksProvider156()
    ensures !Contains("making the final shift", "here we go")
    ensures !Contains("making the final shift", "ok, had a look")
    ensures !Contains("making the final shift", "pass number")
  {
    NotContainsByChar("making the final shift", "here we go", 2);
    NotContainsByChar("making the final shift", "ok, had a look", 0);
    NotContainsByChar("making the final shift", "pass number", 0);
  }

  /** "Making the final shift" reveals step 8 of the provider catalog and no earlier one. */
  lemma FindFinalShiftInProviderSteps()
    ensures Find(ProviderSteps, "Making the final shift") == Some(7)
  {
    LowerFinalShift();
    FinalShiftLacksProvider156();
    LowerHereWeGo();
    MissByText(ProviderSteps[0], "Making the final shift", "making the final shift", "here we go");
    MissByLength(ProviderSteps[1], "Making the final shift");
    MissByLength(ProviderSteps[2], "Making the final shift");
    MissByLength(ProviderSteps[3], "Making the final shift");
    LowerHadALook();
    MissByText(ProviderSteps[4], "Making the final shift", "making the final shift", "ok, had a look");
    LowerPassNumber();
    MissByText(ProviderSteps[5], "Making the final shift", "making the final shift", "pass number");
    MissByLength(ProviderSteps[6], "Making the final shift");
    ContainsAt("making the final shift", "making the final shift", 0);
    FindIs(ProviderSteps, "Making the final shift", 7);
  }

  /** "orange" reveals only the ninth provider step. */
  lemma FindOrangeInProviderSteps()
    ensures Find(ProviderSteps, "orange") == Some(8)
  {
    LowerOrange();
    MissByLength(ProviderSteps[0], "orange");
    MissByLength(ProviderSteps[1], "orange");
    MissByLength(ProviderSteps[2], "orange");
    MissByLength(ProviderSteps[3], "orange");
    MissByLength(ProviderSteps[4], "orange");
    MissByLength(ProviderSteps[5], "orange");
    MissByLength(ProviderSteps[6], "orange");
    MissByLength(ProviderSteps[7], "orange");
    ContainsAt("orange", "orange", 0);
    FindIs(ProviderSteps, "orange", 8);
  }

  /** The texts of steps 1, 5 and 6, the same in both catalogs, do not occur
      in "download your file". */
  lemma DownloadLacksSteps156()
    ensures !Contains("download your file", "here we go")
    ensures !Contains("download your file", "ok, had a look")
    ensures !Contains("download your file", "pass number")
  {
    NotContainsByChar("download your file", "here we go", 0);
    NotContainsByChar("download your file", "ok, had a look", 1);
    NotContainsByChar("download your file", "pass number", 0);
  }

  /** "download your file" reveals only the ninth standalone step. */
  lemma FindDownloadInStandaloneSteps()
    ensures Find(StandaloneSteps, "download your file") == Some(8)
  {
    LowerDownload();
    DownloadLacksSteps156();
    LowerHereWeGo();
    MissByText(StandaloneSteps[0], "download your file", "download your file", "here we go");
    MissByLength(StandaloneSteps[1], "download your file");
    MissByLength(StandaloneSteps[2], "download your file");
    MissByLength(StandaloneSteps[3], "download your file");
    LowerHadALook();
    MissByText(StandaloneSteps[4], "download your file", "download your file", "ok, had a look");
    LowerPassNumber();
    MissByText(StandaloneSteps[5], "download your file", "download your file", "pass number");
    MissByLength(StandaloneSteps[6], "download your file");
    MissByLength(StandaloneSteps[7], "download your file");
    ContainsAt("download your file", "download your file", 0);
    FindIs(StandaloneSteps, "download your file", 8);
  }

  /** Catalog texts that do not occur in "download your file". */
  lemma DownloadLacksProvider9()
    ensures !Contains("download your file", "orange")
  {
    NotContainsByChar("download your file", "orange", 4);
  }

  /** "download your file" reveals no provider step. */
  lemma FindDownloadInProviderSteps()
    ensures Find(ProviderSteps, "download your file") == None
  {
    LowerDownload();
    DownloadLacksSteps156();
    DownloadLacksProvider9();
    LowerHereWeGo();
    MissByText(ProviderSteps[0], "download your file", "download your file", "here we go");
    MissByLength(ProviderSteps[1], "download your file");
    MissByLength(ProviderSteps[2], "download your file");
    MissByLength(ProviderSteps[3], "download your file");
    LowerHadALook();
    MissByText(ProviderSteps[4], "download your file", "download your file", "ok, had a look");
    LowerPassNumber();
    MissByText(ProviderSteps[5], "download your file", "download your file", "pass number");
    MissByLength(ProviderSteps[6], "download your file");
    MissByLength(ProviderSteps[7], "download your file");
    LowerOrange();
    MissByText(ProviderSteps[8], "download your file", "download your file", "orange");
  }

  /** "orange" reveals no standalone step. */
  lemma FindOrangeInStandaloneSteps()
    ensures Find(StandaloneSteps, "orange") == None
  {
    LowerOrange();
    MissByLength(StandaloneSteps[0], "orange");
    MissByLength(StandaloneSteps[1], "orange");
    MissByLength(StandaloneSteps[2], "orange");
    MissByLength(StandaloneSteps[3], "orange");
    MissByLength(StandaloneSteps[4], "orange");
    MissByLength(StandaloneSteps[5], "orange");
    MissByLength(StandaloneSteps[6], "orange");
    MissByLength(StandaloneSteps[7], "orange");
    MissByLength(StandaloneSteps[8], "orange");
  }

  /** Catalog texts that do not occur in "no video". */
  lemma NoVideoLacksProvider9()
    ensures !Contains("no video", "orange")
  {
    NotContainsByChar("no video", "orange", 1);
  }

  /** "no video" reveals no provider step. */
  lemma FindNoVideoInProviderSteps()
    ensures Find(ProviderSteps, "no video") == None
  {
    LowerNoVideo();
    NoVideoLacksProvider9();
    MissByLength(ProviderSteps[0], "no video");
    MissByLength(ProviderSteps[1], "no video");
    MissByLength(ProviderSteps[2], "no video");
    MissByLength(ProviderSteps[3], "no video");
    MissByLength(ProviderSteps[4], "no video");
    MissByLength(ProviderSteps[5], "no video");
    MissByLength(ProviderSteps[6], "no video");
    MissByLength(ProviderSteps[7], "no video");
    LowerOrange();
    MissByText(ProviderSteps[8], "no video", "no video", "orange");
  }

  /** Catalog texts that do not occur in "get your file". */
  lemma GetYourFileLacksProvider169()
    ensures !Contains("get your file", "here we go")
    ensures !Contains("get your file", "pass number")
    ensures !Contains("get your file", "orange")
  {
    NotContainsByChar("get your file", "here we go", 0);
    NotContainsByChar("get your file", "pass number", 0);
    NotContainsByChar("get your file", "orange", 2);
  }

  /** "get your file" reveals no provider step. */
  lemma FindGetYourFileInProviderSteps()
    ensures Find(ProviderSteps, "get your file") == None
  {
    LowerGetYourFile();
    GetYourFileLacksProvider169();
    LowerHereWeGo();
    MissByText(ProviderSteps[0], "get your file", "get your file", "here we go");
    MissByLength(ProviderSteps[1], "get your file");
    MissByLength(ProviderSteps[2], "get your file");
    MissByLength(ProviderSteps[3], "get your file");
    MissByLength(ProviderSteps[4], "get your file");
    LowerPassNumber();
    MissByText(ProviderSteps[5], "get your file", "get your file", "pass number");
    MissByLength(ProviderSteps[6], "get your file");
    MissByLength(ProviderSteps[7], "get your file");
    LowerOrange();
    MissByText(ProviderSteps[8], "get your file", "get your file", "orange");
  }

  /** "Pass number" reveals the sixth standalone step and no earlier one. */
  lemma FindPassNumberInStandaloneSteps()
    ensures Find(StandaloneSteps, "Pass number") == Some(5)
  {
    FindPassNumberInProviderSteps();
    SharedSteps();
    FindAgreeOnPrefix(ProviderSteps, StandaloneSteps, "Pass number", 8);
  }

  /** A greeting followed by "error" still reveals the first step. */
  lemma FindHereWeGoErrorInProviderSteps()
    ensures Find(ProviderSteps, "Here we go error") == Some(0)
  {
    LowerHereWeGoError();
    LowerHereWeGo();
    ContainsAt("here we go error", "here we go", 0);
    FindIs(ProviderSteps, "Here we go error", 0);
  }

}
