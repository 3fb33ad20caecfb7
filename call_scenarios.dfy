/** Client scenarios of the call component: what a caller can conclude from the handlers'
    contracts alone. */
module CallScenarios {
  import opened Options
  import opened EmotionSelection
  import opened EmotionLog
  import opened Transcript
  import opened CallSession

  /** A face whose clearest expression is `name`. */
  function Face(name: string): Option<seq<Entry>> {
    Some([Entry("neutral", 0.1), Entry(name, 0.5)])
  }

  lemma FaceSample(name: string)
    ensures SampledEmotion(Face(name)) == name
  {
  }

  lemma JoinTwo()
    ensures Join(["neutral", "happy"]) == "neutral, happy"
  {
  }

  /** The start request carries the questions joined with ", ". */
  method StartRequest() {
    var call := new Call("I1", "R1", ["Why us?", "Why now?"]);
    assert call.StartEnabled();
    var request := call.ClickStart();
    assert Join(["Why us?", "Why now?"]) == "Why us?" + ", " + "Why now?";
    assert request.questions == "Why us?, Why now?";
    assert call.loading && !call.StartEnabled();
  }

  /** Interview "I1", call "C1": the call starts, the detector sees neutral, happy, neutral, and
      the call ends twice. */
  method SummaryOnce() {
    var call := new Call("I1", "R1", []);
    var request := call.ClickStart();
    call.StartSucceeded("C1");
    call.OnStarted();
    NeutralHappyNeutral(call);
    EndTwice(call);
  }

  /** Ticks with neutral, happy, neutral faces record neutral, happy. */
  method NeutralHappyNeutral(call: Call)
    requires call.Valid() && call.emotions == []
    modifies call`emotion, call`emotions
    ensures call.Valid() && call.emotions == ["neutral", "happy"]
  {
    FaceSample("neutral");
    FaceSample("happy");
    assert AddDistinct([], "neutral") == ["neutral"];
    assert AddDistinct(["neutral"], "happy") == ["neutral", "happy"];
    assert AddDistinct(["neutral", "happy"], "neutral") == ["neutral", "happy"];
    call.Sample(Face("neutral"));
    call.Sample(Face("happy"));
    call.Sample(Face("neutral"));
  }

  /** Two tab switches, then two end events: exactly one summary, with emotion "neutral, happy". */
  method EndTwice(call: Call)
    requires call.Valid() && !call.isEnded && call.submitted == []
    requires call.interviewId == "I1" && call.callId == "C1" && call.emotions == ["neutral", "happy"]
    modifies call
  {
    JoinTwo();
    call.OnEnded(2);
    assert call.submitted == [Summary("I1", "C1", 2, "neutral, happy", true)];
    call.OnEnded(2);
    assert call.submitted == [Summary("I1", "C1", 2, "neutral, happy", true)];
  }

  /** Samples happy, sad, happy, angry, with ticks without a face in between, record
      happy, sad, angry. */
  method DistinctEmotions() {
    var call := new Call("I1", "R1", []);
    HappyThenSad(call);
    HappyThenAngry(call);
    assert call.emotions == ["happy", "sad", "angry"];
  }

  /** A happy face, no face, a sad face: the list becomes happy, sad. */
  method HappyThenSad(call: Call)
    requires call.Valid() && call.emotions == []
    modifies call`emotion, call`emotions
    ensures call.Valid() && call.emotions == ["happy", "sad"]
  {
    FaceSample("happy");
    FaceSample("sad");
    assert AddDistinct([], "happy") == ["happy"];
    assert AddDistinct(["happy"], "sad") == ["happy", "sad"];
    call.Sample(Face("happy"));
    assert call.emotions == ["happy"];
    call.Sample(None);
    assert call.emotions == ["happy"];
    call.Sample(Face("sad"));
  }

  /** After happy, sad: a happy face and no face change nothing; an angry face is appended. */
  method HappyThenAngry(call: Call)
    requires call.Valid() && call.emotions == ["happy", "sad"]
    modifies call`emotion, call`emotions
    ensures call.Valid() && call.emotion == "angry" && call.emotions == ["happy", "sad", "angry"]
  {
    FaceSample("happy");
    FaceSample("angry");
    assert AddDistinct(["happy", "sad"], "angry") == ["happy", "sad", "angry"];
    call.Sample(Face("happy"));
    assert call.emotions == ["happy", "sad"];
    call.Sample(None);
    assert call.emotions == ["happy", "sad"];
    call.Sample(Face("angry"));
  }

  /** The detection effect as written: it runs once, at mount, before the face API has been
      loaded, so its guard returns and no tick ever happens. A call that starts and ends then
      hands over a summary whose emotion is "". */
  method SummaryWithoutTicks() {
    var call := new Call("I1", "R1", []);
    var request := call.ClickStart();
    call.StartSucceeded("C1");
    call.OnStarted();
    call.OnEnded(0);
    assert Join([]) == "";
    assert call.submitted == [Summary("I1", "C1", 0, "", true)];
  }

  /** An end event before any call id is known hands over nothing, and nothing is handed over
      later either, even once the call id arrives. */
  method EndWithoutCallId() {
    var call := new Call("I1", "R1", ["Q"]);
    var request := call.ClickStart();
    call.OnEnded(0);
    call.StartSucceeded("C1");
    call.OnEnded(0);
    assert call.submitted == [];
    assert !call.StartOffered();
  }

  /** A user-only update clears the agent's slot; an update without a transcript keeps both. */
  method UserOnlyUpdate() {
    var call := new Call("I1", "R1", []);
    var turns := [Turn("agent", "Hello"), Turn("user", "Hi"), Turn("agent", "Tell me more")];
    LastSpokenAt(turns, 1);
    LastSpokenAt(turns, 2);
    call.OnUpdate(Some(turns));
    assert call.lastAgentText == "Tell me more" && call.lastUserText == "Hi";
    call.OnUpdate(None);
    assert call.lastAgentText == "Tell me more";
    var userOnly := [Turn("user", "Bye")];
    LastSpokenAt(userOnly, 0);
    LastSpokenNone(userOnly, AgentRole);
    call.OnUpdate(Some(userOnly));
    assert call.lastAgentText == "" && call.lastUserText == "Bye";
  }
}
