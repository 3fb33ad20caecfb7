/** The state of the interview call component and its event handlers. Each handler of the
    component is one method; the call client's events, the detection timer's ticks and the
    completion of the start action are calls of these methods. */
module CallSession {
  import opened Options
  import opened EmotionSelection
  import opened EmotionLog
  import opened Transcript

  /** The record handed to the response store when the call has ended. */
  datatype Summary = Summary(interviewId: string, callId: string, tabSwitchCount: int,
                             emotion: string, isEnded: bool)

  /** The body posted to the call-registration endpoint by the start action. */
  datatype RegisterRequest = RegisterRequest(questions: string, interviewerId: string)

  /** The transcript roles whose last text is shown. */
  const AgentRole: string := "agent"
  const UserRole: string := "user"

  /** `map[role] || ""` after the update's `forEach`: the last content of `role`, or "". */
  function SlotText(turns: seq<Turn>, role: string): string {
    match LastSpoken(turns, role)
    case Some(content) => content
    case None => ""
  }

  /** The emotion a detector tick yields: the dominant label when a face with expressions was
      detected, "" when there was no detection. */
  function SampledEmotion(detection: Option<seq<Entry>>): string {
    match detection
    case Some(entries) => Dominant(entries).name
    case None => ""
  }

  /** A tick without a detection yields ""; a tick with one yields "neutral" or the label of an
      entry that scores at least as much as every entry. */
  lemma SampledEmotionMax(detection: Option<seq<Entry>>)
    ensures detection.None? ==> SampledEmotion(detection) == ""
    ensures detection.Some? ==> (SampledEmotion(detection) == "neutral" ||
      exists i :: 0 <= i < |detection.value| && detection.value[i].name == SampledEmotion(detection) &&
        forall j :: 0 <= j < |detection.value| ==> detection.value[j].score <= detection.value[i].score)
  {
    if detection.Some? {
      var r := Dominant(detection.value);
      if r != Seed {
        var i :| 0 <= i < |detection.value| && detection.value[i] == r;
      }
    }
  }

  class Call {
    /** Props of the component. */
    const interviewId: string
    const interviewerId: string
    const questions: seq<string>

    var loading: bool
    var isStarted: bool
    var isEnded: bool
    var isCalling: bool
    var lastAgentText: string
    var lastUserText: string
    var emotion: string
    var emotions: seq<string>
    var callId: string
    /** The summaries handed to the response store, in order. */
    var submitted: seq<Summary>

    /** The emotion list is duplicate-free and free of ""; the current emotion is recorded in it
        unless it is ""; at most one summary was handed over, only after the end, with a known
        call id. */
    ghost predicate Valid()
      reads this
    {
      Distinct(emotions) && "" !in emotions &&
      (emotion == "" || emotion in emotions) &&
      |submitted| <= 1 &&
      (submitted != [] ==> isEnded && submitted[0].interviewId == interviewId &&
                           submitted[0].callId != "" && submitted[0].isEnded)
    }

    /** The state of a freshly mounted component. */
    constructor (interviewId: string, interviewerId: string, questions: seq<string>)
      ensures Valid()
      ensures this.interviewId == interviewId && this.interviewerId == interviewerId
      ensures this.questions == questions
      ensures !loading && !isStarted && !isEnded && !isCalling
      ensures lastAgentText == "" && lastUserText == "" && emotion == "" && callId == ""
      ensures emotions == [] && submitted == []
    {
      this.interviewId := interviewId;
      this.interviewerId := interviewerId;
      this.questions := questions;
      loading, isStarted, isEnded, isCalling := false, false, false, false;
      lastAgentText, lastUserText, emotion, callId := "", "", "", "";
      emotions, submitted := [], [];
    }

    /** The start button is rendered. */
    predicate StartOffered()
      reads this
    {
      !isStarted && !isEnded
    }

    /** The start button is rendered and not disabled. */
    predicate StartEnabled()
      reads this
    {
      StartOffered() && !loading
    }

    /** The lines shown while the call runs. */
    predicate TranscriptShown()
      reads this
    {
      isStarted && !isEnded
    }

    /** A click on the start button: `loading` is raised and the registration request carries the
        questions joined with ", " and the interviewer. Nothing else changes. */
    method ClickStart() returns (request: RegisterRequest)
      requires Valid() && StartEnabled()
      modifies this`loading
      ensures Valid() && loading && !StartEnabled()
      ensures request == RegisterRequest(Join(questions), interviewerId)
    {
      loading := true;
      request := RegisterRequest(Join(questions), interviewerId);
    }

    /** The start action resumes after registration and the call client's start: the registered
        call id is recorded, the call counts as started and `loading` drops. There is no failure
        path: when a step throws, this method is never called and `loading` stays raised. */
    method StartSucceeded(registeredCallId: string)
      requires Valid() && loading
      modifies this`callId, this`isStarted, this`loading
      ensures Valid()
      ensures callId == registeredCallId && isStarted && !loading
      ensures !StartOffered() && (TranscriptShown() <==> !isEnded)
    {
      callId := registeredCallId;
      isStarted := true;
      loading := false;
    }

    /** The call client's `call_started` event. */
    method OnStarted()
      requires Valid()
      modifies this`isCalling
      ensures Valid() && isCalling
    {
      isCalling := true;
    }

    /** The call client's `call_ended` event, followed by the summary effect, which runs only when
        `isEnded` changes: the first end with a known call id hands over exactly one summary;
        a later end, or an end before any call id, hands over nothing. */
    method OnEnded(tabSwitchCount: int)
      requires Valid()
      modifies this`isCalling, this`isEnded, this`submitted
      ensures Valid()
      ensures !isCalling && isEnded && !StartOffered() && !TranscriptShown()
      ensures submitted == old(submitted) +
        if !old(isEnded) && callId != ""
        then [Summary(interviewId, callId, tabSwitchCount, Join(emotions), true)]
        else []
    {
      isCalling := false;
      var changed := !isEnded;
      isEnded := true;
      if changed && callId != "" {
        submitted := submitted + [Summary(interviewId, callId, tabSwitchCount, Join(emotions), true)];
      }
    }

    /** The call client's `update` event. Without a transcript nothing changes; otherwise each slot
        becomes the last content of its role, or "" when that role is absent from the update. */
    method OnUpdate(transcript: Option<seq<Turn>>)
      requires Valid()
      modifies this`lastAgentText, this`lastUserText
      ensures Valid()
      ensures transcript.None? ==> lastAgentText == old(lastAgentText) && lastUserText == old(lastUserText)
      ensures transcript.Some? ==> lastAgentText == SlotText(transcript.value, AgentRole) &&
                                   lastUserText == SlotText(transcript.value, UserRole)
    {
      if transcript.None? {
        return;
      }
      var m := CollectByRole(transcript.value);
      lastAgentText := if AgentRole in m then m[AgentRole] else "";
      lastUserText := if UserRole in m then m[UserRole] else "";
    }

    /** One tick of the face detector, followed by the storage effect, which runs only when
        `emotion` changes. The emotion becomes the dominant label, or "" without a detection,
        and the list grows by it exactly as AddDistinct says. */
    method Sample(detection: Option<seq<Entry>>)
      requires Valid()
      modifies this`emotion, this`emotions
      ensures Valid()
      ensures emotion == SampledEmotion(detection)
      ensures emotions == AddDistinct(old(emotions), emotion)
    {
      var next := SampledEmotion(detection);
      var changed := next != emotion;
      emotion := next;
      if changed {
        emotions := AddDistinct(emotions, emotion);
      }
    }
  }

  /** The emotion values of a run of detector ticks. */
  function Samples(detections: seq<Option<seq<Entry>>>): seq<string>
    decreases |detections|
  {
    if detections == [] then []
    else Samples(detections[..|detections| - 1]) + [SampledEmotion(detections[|detections| - 1])]
  }

  /** One more tick extends the accumulation by one AddDistinct step. */
  lemma MonitorStep(prior: seq<string>, detections: seq<Option<seq<Entry>>>, i: nat)
    requires i < |detections|
    ensures Accumulate(prior + Samples(detections[..i + 1])) ==
            AddDistinct(Accumulate(prior + Samples(detections[..i])), SampledEmotion(detections[i]))
  {
    assert detections[..i + 1][..i] == detections[..i];
    assert prior + Samples(detections[..i + 1]) ==
           (prior + Samples(detections[..i])) + [SampledEmotion(detections[i])];
    AccumulateStep(prior + Samples(detections[..i]), SampledEmotion(detections[i]));
  }

  /** A run of detector ticks. When the list so far is the accumulation of the earlier samples,
      it is afterwards the accumulation of those samples followed by the run's, whatever the
      storage effect skipped because the emotion did not change. */
  method Monitor(call: Call, detections: seq<Option<seq<Entry>>>, ghost prior: seq<string>)
    requires call.Valid() && call.emotions == Accumulate(prior)
    modifies call`emotion, call`emotions
    ensures call.Valid()
    ensures call.emotions == Accumulate(prior + Samples(detections))
    ensures detections == [] ==> call.emotion == old(call.emotion)
    ensures detections != [] ==> call.emotion == SampledEmotion(detections[|detections| - 1])
  {
    var i := 0;
    assert detections[..0] == [];
    assert prior + [] == prior;
    while i < |detections|
      invariant 0 <= i <= |detections|
      invariant call.Valid() && call.emotions == Accumulate(prior + Samples(detections[..i]))
      invariant i == 0 ==> call.emotion == old(call.emotion)
      invariant i > 0 ==> call.emotion == SampledEmotion(detections[i - 1])
    {
      MonitorStep(prior, detections, i);
      call.Sample(detections[i]);
      i := i + 1;
    }
    assert detections[..i] == detections;
  }
}
