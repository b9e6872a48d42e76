/** The reception screen: a scripted six-question intake. The receptionist's
    prompts and the learner's (mocked) spoken answers arrive through timers;
    every answer fills the profile field the current prompt asks for and
    appends to the transcript. */
module ReceptionWizard {
  import opened Wrappers
  import opened Types
  import opened Constants

  /** The canned answers the microphone button produces, one per step. */
  const MockResponses: seq<string> := [
    "I'm Alex.",
    "I am 16 years old.",
    "High School Sophomore.",
    "Science.",
    "Quantum Physics.",
    "English."
  ]

  /** The profile the canned answers produce. */
  const MockProfile := UserPreferences(
    MockResponses[0], MockResponses[1], MockResponses[2],
    MockResponses[3], MockResponses[4], MockResponses[5])

  /** The reception screen's state: the React state fields, plus the callbacks
      waiting on timers (delays themselves are not modelled; callbacks with
      the same delay fire in the order they were scheduled):
      - pendingAi: texts of receptionist messages scheduled by
        `triggerAiMessage`, oldest first;
      - pendingListen: "start listening" callbacks scheduled after a
        receptionist message appears;
      - pendingAnswers: voice answers scheduled by the microphone button, each
        holding the step its render's closure saw. */
  datatype Wizard = Wizard(
    preferences: UserPreferences,
    messages: seq<ChatMessage>,
    step: int,
    isListening: bool,
    isAiSpeaking: bool,
    pendingAi: seq<string>,
    pendingListen: nat,
    pendingAnswers: seq<int>)

  /** The state on entering the screen: empty profile, step 0, no transcript. */
  const InitialWizard := Wizard(EmptyPreferences, [], 0, false, false, [], 0, [])

  /** `triggerAiMessage`: the receptionist starts speaking and the message is
      scheduled to appear. */
  function TriggerAi(s: Wizard, text: string): (r: Wizard)
    ensures r.isAiSpeaking && r.pendingAi == s.pendingAi + [text]
    ensures r.(isAiSpeaking := s.isAiSpeaking, pendingAi := s.pendingAi) == s
  {
    s.(isAiSpeaking := true, pendingAi := s.pendingAi + [text])
  }

  /** The mount effect: on a fresh screen (step 0, empty transcript) the
      receptionist starts speaking and the first prompt is scheduled; on any
      other state it does nothing. */
  function Mount(s: Wizard): (r: Wizard)
    ensures s.step == 0 && |s.messages| == 0 ==>
      r.isAiSpeaking && r.pendingAi == s.pendingAi + [ConversationFlow[0].text]
      && r.(isAiSpeaking := s.isAiSpeaking, pendingAi := s.pendingAi) == s
    ensures !(s.step == 0 && |s.messages| == 0) ==> r == s
  {
    if s.step == 0 && |s.messages| == 0 then TriggerAi(s, ConversationFlow[0].text) else s
  }

  /** The receptionist's message timer fires: the oldest scheduled message is
      appended to the transcript, speaking stops, and listening is scheduled. */
  function AiMessageDue(s: Wizard): (r: Wizard)
    ensures s.pendingAi == [] ==> r == s
    ensures s.pendingAi != [] ==>
      && r.messages == s.messages + [ChatMessage(Ai, s.pendingAi[0])]
      && r.pendingAi == s.pendingAi[1..]
      && !r.isAiSpeaking
      && r.pendingListen == s.pendingListen + 1
      && r.(messages := s.messages, pendingAi := s.pendingAi, isAiSpeaking := s.isAiSpeaking, pendingListen := s.pendingListen) == s
  {
    if s.pendingAi == [] then s
    else s.(messages := s.messages + [ChatMessage(Ai, s.pendingAi[0])],
            isAiSpeaking := false,
            pendingAi := s.pendingAi[1..],
            pendingListen := s.pendingListen + 1)
  }

  /** The "start listening" timer fires. */
  function ListenDue(s: Wizard): (r: Wizard)
    ensures s.pendingListen == 0 ==> r == s
    ensures s.pendingListen > 0 ==>
      r == s.(isListening := true, pendingListen := s.pendingListen - 1)
  {
    if s.pendingListen == 0 then s
    else s.(isListening := true, pendingListen := s.pendingListen - 1)
  }

  /** `handleUserResponse(text)` as run by the closure of a render that saw
      step `captured`: listening stops, the answer is appended to the
      transcript, the field of prompt `captured` receives the text, and unless
      `captured` is the last prompt the step advances by one (from its current
      value) and the next prompt is scheduled. */
  function HandleUserResponse(s: Wizard, text: string, captured: int): (r: Wizard)
    requires 0 <= captured < |ConversationFlow|
    ensures !r.isListening
    ensures r.messages == s.messages + [ChatMessage(User, text)]
    ensures GetField(r.preferences, FieldAt(captured)) == text
    ensures forall f: PrefField :: f != FieldAt(captured) ==> GetField(r.preferences, f) == GetField(s.preferences, f)
    ensures captured < LastStep ==>
      r.step == s.step + 1 && r.isAiSpeaking && r.pendingAi == s.pendingAi + [ConversationFlow[captured + 1].text]
    ensures captured == LastStep ==>
      r.step == s.step && r.isAiSpeaking == s.isAiSpeaking && r.pendingAi == s.pendingAi
    ensures r.pendingListen == s.pendingListen && r.pendingAnswers == s.pendingAnswers
  {
    var answered := s.(isListening := false,
                       messages := s.messages + [ChatMessage(User, text)],
                       preferences := SetField(s.preferences, FieldAt(captured), text));
    if captured < LastStep then TriggerAi(answered.(step := s.step + 1), ConversationFlow[captured + 1].text)
    else answered
  }

  /** `simulateVoiceInput` as written: while listening, the canned answer for
      the current step is scheduled; listening is left on, so a second tap
      before the answer arrives schedules a second answer for the same step. */
  function TapMicrophoneAsWritten(s: Wizard): (r: Wizard)
    ensures !s.isListening ==> r == s
    ensures s.isListening ==> r == s.(pendingAnswers := s.pendingAnswers + [s.step])
  {
    if !s.isListening then s else s.(pendingAnswers := s.pendingAnswers + [s.step])
  }

  /** The microphone button with the tap disarming it: while listening, the
      canned answer for the current step is scheduled and listening stops, so
      one prompt gets one answer. */
  function TapMicrophone(s: Wizard): (r: Wizard)
    ensures !s.isListening ==> r == s
    ensures s.isListening ==>
      !r.isListening && r.pendingAnswers == s.pendingAnswers + [s.step] &&
      r.(isListening := true, pendingAnswers := s.pendingAnswers) == s
  {
    if !s.isListening then s else s.(isListening := false, pendingAnswers := s.pendingAnswers + [s.step])
  }

  /** A scheduled voice answer arrives and runs the answer handler with the
      step its closure captured. A step past the script has no canned answer:
      the source then reads `undefined` and the handler throws after turning
      listening off; here only that effect is kept. */
  function AnswerDue(s: Wizard): (r: Wizard)
    ensures s.pendingAnswers == [] ==> r == s
    ensures s.pendingAnswers != [] && 0 <= s.pendingAnswers[0] < |MockResponses| ==>
      r == HandleUserResponse(s.(pendingAnswers := s.pendingAnswers[1..]),
                              MockResponses[s.pendingAnswers[0]], s.pendingAnswers[0])
  {
    if s.pendingAnswers == [] then s
    else
      var captured := s.pendingAnswers[0];
      var rest := s.(pendingAnswers := s.pendingAnswers[1..]);
      if 0 <= captured < |MockResponses| then HandleUserResponse(rest, MockResponses[captured], captured)
      else rest.(isListening := false)
  }

  /** `isComplete`: the last prompt is current and its field, the language,
      has been given. */
  predicate IsComplete(s: Wizard): (c: bool)
    ensures c <==> s.step == LastStep && GetField(s.preferences, FieldAt(s.step)) != ""
  {
    s.step == LastStep && s.preferences.language != ""
  }

  /** The "Confirm Profile" button, shown only once the intake is complete,
      hands over the collected profile. */
  function Confirm(s: Wizard): (p: Option<UserPreferences>)
    ensures p.Some? <==> IsComplete(s)
    ensures p.Some? ==> p.value == s.preferences
  {
    if IsComplete(s) then Some(s.preferences) else None
  }

  /** The events after mounting. */
  datatype WizardEvent = AiMessageTimer | ListenTimer | MicTap | AnswerTimer

  function Step(s: Wizard, e: WizardEvent): Wizard
  {
    match e
    case AiMessageTimer => AiMessageDue(s)
    case ListenTimer => ListenDue(s)
    case MicTap => TapMicrophone(s)
    case AnswerTimer => AnswerDue(s)
  }

  function StepAsWritten(s: Wizard, e: WizardEvent): Wizard
  {
    match e
    case AiMessageTimer => AiMessageDue(s)
    case ListenTimer => ListenDue(s)
    case MicTap => TapMicrophoneAsWritten(s)
    case AnswerTimer => AnswerDue(s)
  }

  function Run(s: Wizard, es: seq<WizardEvent>): Wizard
    decreases |es|
  {
    if es == [] then s else Run(Step(s, es[0]), es[1..])
  }

  function RunAsWritten(s: Wizard, es: seq<WizardEvent>): Wizard
    decreases |es|
  {
    if es == [] then s else RunAsWritten(StepAsWritten(s, es[0]), es[1..])
  }

  /** How many callbacks are waiting or armed: scheduled messages, listening
      timers, the armed microphone and scheduled answers. */
  function InFlight(s: Wizard): nat
  {
    |s.pendingAi| + s.pendingListen + (if s.isListening then 1 else 0) + |s.pendingAnswers|
  }

  /** The invariant of the intake with the disarming microphone: the step is
      within the script; at most one callback is in flight, and an answer in
      flight was captured at the current step; prompts before the current one
      hold their canned answers, later prompts are empty, and the current
      prompt's field is empty unless it is the last one and answered. */
  ghost predicate OnScript(s: Wizard)
  {
    && 0 <= s.step <= LastStep
    && InFlight(s) <= 1
    && (s.pendingAnswers == [] || s.pendingAnswers == [s.step])
    && (forall k :: 0 <= k < s.step ==> GetField(s.preferences, FieldAt(k)) == MockResponses[k])
    && (forall k :: s.step < k <= LastStep ==> GetField(s.preferences, FieldAt(k)) == "")
    && (GetField(s.preferences, FieldAt(s.step)) == ""
        || (s.step == LastStep && GetField(s.preferences, FieldAt(s.step)) == MockResponses[s.step]))
  }

  /** Entering the screen starts on script. */
  lemma MountStartsOnScript()
    ensures Mount(InitialWizard).step == 0 && Mount(InitialWizard).messages == []
    ensures Mount(InitialWizard).preferences == EmptyPreferences
    ensures OnScript(Mount(InitialWizard))
  {
    ScriptOrder();
  }

  /** An answer at the current step keeps the intake on script. */
  lemma {:induction false} AnswerKeepsOnScript(s: Wizard)
    requires OnScript(s) && s.pendingAnswers != []
    ensures OnScript(AnswerDue(s))
  {
    ScriptOrder();
    var c := s.pendingAnswers[0];
    assert c == s.step;
    var rest := s.(pendingAnswers := s.pendingAnswers[1..]);
    var r := HandleUserResponse(rest, MockResponses[c], c);
    assert AnswerDue(s) == r;
    forall k | 0 <= k < r.step
      ensures GetField(r.preferences, FieldAt(k)) == MockResponses[k]
    {
      if k != c { ScriptFieldsDistinct(k, c); }
    }
    forall k | r.step < k <= LastStep
      ensures GetField(r.preferences, FieldAt(k)) == ""
    {
      ScriptFieldsDistinct(k, c);
    }
    if c < LastStep {
      ScriptFieldsDistinct(r.step, c);
    }
  }

  /** Every event keeps the intake on script. */
  lemma {:induction false} StepKeepsOnScript(s: Wizard, e: WizardEvent)
    requires OnScript(s)
    ensures OnScript(Step(s, e))
  {
    if e == AnswerTimer && s.pendingAnswers != [] {
      AnswerKeepsOnScript(s);
    }
  }

  /** Along any sequence of events the intake stays on script; in particular
      the step never leaves 0..5. */
  lemma {:induction false} RunKeepsOnScript(s: Wizard, es: seq<WizardEvent>)
    requires OnScript(s)
    ensures OnScript(Run(s, es))
    ensures 0 <= Run(s, es).step <= LastStep
    decreases |es|
  {
    if es != [] {
      StepKeepsOnScript(s, es[0]);
      RunKeepsOnScript(Step(s, es[0]), es[1..]);
    }
  }

  /** A complete intake on script holds exactly the six canned answers, in
      script order: name, age, academic level, subject, topic, language. */
  lemma CompleteProfileIsMockProfile(s: Wizard)
    requires OnScript(s) && IsComplete(s)
    ensures s.preferences == MockProfile
  {
    ScriptOrder();
    assert GetField(s.preferences, FieldAt(5)) == MockResponses[5];
    CannedFieldsMakeMockProfile(s.preferences);
  }

  /** Before the last prompt the intake is never complete, and on script the
      language is only given by the answer to the last prompt. */
  lemma IncompleteBeforeLastAnswer(s: Wizard)
    requires OnScript(s)
    ensures s.step < LastStep ==> !IsComplete(s) && s.preferences.language == ""
  {
    ScriptOrder();
    if s.step < LastStep {
      assert GetField(s.preferences, FieldAt(LastStep)) == "";
    }
  }

  /** Tapping the disarming microphone twice is the same as tapping it once. */
  lemma SecondTapIsNoOp(s: Wizard)
    ensures TapMicrophone(TapMicrophone(s)) == TapMicrophone(s)
  {
  }

  /** The four events of one question-and-answer round. */
  const Round: seq<WizardEvent> := [AiMessageTimer, ListenTimer, MicTap, AnswerTimer]

  /** The events of `k` rounds, one after the other. */
  function Rounds(k: nat): seq<WizardEvent>
  {
    if k == 0 then [] else Rounds(k - 1) + Round
  }

  /** The state after `k` rounds. */
  function AfterRounds(s: Wizard, k: nat): Wizard
  {
    if k == 0 then s else Run(AfterRounds(s, k - 1), Round)
  }

  lemma {:induction false} RunAppend(s: Wizard, a: seq<WizardEvent>, b: seq<WizardEvent>)
    ensures Run(s, a + b) == Run(Run(s, a), b)
    decreases |a|
  {
    if a == [] {
      assert a + b == b;
    } else {
      assert (a + b)[1..] == a[1..] + b;
      RunAppend(Step(s, a[0]), a[1..], b);
    }
  }

  lemma {:induction false} RunRounds(s: Wizard, k: nat)
    ensures Run(s, Rounds(k)) == AfterRounds(s, k)
  {
    if k > 0 {
      RunRounds(s, k - 1);
      RunAppend(s, Rounds(k - 1), Round);
    }
  }

  /** One round on a state waiting for prompt `n`'s message records the canned
      answer to prompt `n`. */
  lemma {:induction false} RoundAnswers(s: Wizard, n: int)
    requires 0 <= n <= LastStep && s.step == n
    requires s.pendingAi == [ConversationFlow[n].text] && s.pendingListen == 0
    requires !s.isListening && s.pendingAnswers == []
    ensures var r := Run(s, Round);
      && GetField(r.preferences, FieldAt(n)) == MockResponses[n]
      && (forall f: PrefField :: f != FieldAt(n) ==> GetField(r.preferences, f) == GetField(s.preferences, f))
      && r.messages == s.messages + PromptAndAnswer(n)
      && (n < LastStep ==> r.step == n + 1 && r.pendingAi == [ConversationFlow[n + 1].text])
      && (n == LastStep ==> r.step == n && r.pendingAi == [])
      && r.pendingListen == 0 && !r.isListening && r.pendingAnswers == []
  {
    var s1 := AiMessageDue(s);
    var s2 := ListenDue(s1);
    var s3 := TapMicrophone(s2);
    var s4 := AnswerDue(s3);
    assert Run(s, Round) == s4 by {
      assert Round[1..][1..][1..][1..] == [];
    }
  }

  /** The receptionist's prompt `n` followed by the canned answer to it. */
  function PromptAndAnswer(n: int): seq<ChatMessage>
    requires 0 <= n < |ConversationFlow|
  {
    [ChatMessage(Ai, ConversationFlow[n].text), ChatMessage(User, MockResponses[n])]
  }

  /** The transcript of the first `k` rounds. */
  function Transcript(k: nat): (t: seq<ChatMessage>)
    requires k <= |ConversationFlow|
    ensures |t| == 2 * k
    ensures forall n :: 0 <= n < k ==> t[2 * n] == ChatMessage(Ai, ConversationFlow[n].text)
    ensures forall n :: 0 <= n < k ==> t[2 * n + 1] == ChatMessage(User, MockResponses[n])
  {
    if k == 0 then [] else Transcript(k - 1) + PromptAndAnswer(k - 1)
  }

  /** After `k` rounds from mounting, the first `k` prompts have their canned
      answers and the transcript alternates prompt and answer. */
  lemma {:induction false} RoundsFromMount(k: nat)
    requires k <= |ConversationFlow|
    ensures var r := AfterRounds(Mount(InitialWizard), k);
      && r.messages == Transcript(k)
      && r.step == (if k < |ConversationFlow| then k else LastStep)
      && (k < |ConversationFlow| ==> r.pendingAi == [ConversationFlow[k].text])
      && (k == |ConversationFlow| ==> r.pendingAi == [])
      && r.pendingListen == 0 && !r.isListening && r.pendingAnswers == []
      && (forall j :: 0 <= j < k ==> GetField(r.preferences, FieldAt(j)) == MockResponses[j])
  {
    ScriptOrder();
    if k > 0 {
      RoundsFromMount(k - 1);
      var prev := AfterRounds(Mount(InitialWizard), k - 1);
      RoundAnswers(prev, k - 1);
      var r := AfterRounds(Mount(InitialWizard), k);
      forall j | 0 <= j < k
        ensures GetField(r.preferences, FieldAt(j)) == MockResponses[j]
      {
        if j != k - 1 { ScriptFieldsDistinct(j, k - 1); }
      }
    }
  }

  /** One round ends with the answer handler, which turns listening off, so
      the microphone as written and the disarming one agree on it, from any
      state. */
  lemma RoundAgrees(s: Wizard)
    ensures RunAsWritten(s, Round) == Run(s, Round)
  {
    var s2 := ListenDue(AiMessageDue(s));
    assert RunAsWritten(s, Round) == AnswerDue(TapMicrophoneAsWritten(s2)) by {
      assert Round[1..][1..][1..][1..] == [];
    }
    assert Run(s, Round) == AnswerDue(TapMicrophone(s2)) by {
      assert Round[1..][1..][1..][1..] == [];
    }
  }

  lemma {:induction false} RunAsWrittenAppend(s: Wizard, a: seq<WizardEvent>, b: seq<WizardEvent>)
    ensures RunAsWritten(s, a + b) == RunAsWritten(RunAsWritten(s, a), b)
    decreases |a|
  {
    if a == [] {
      assert a + b == b;
    } else {
      assert (a + b)[1..] == a[1..] + b;
      RunAsWrittenAppend(StepAsWritten(s, a[0]), a[1..], b);
    }
  }

  /** Any number of whole rounds gives the same state with either microphone. */
  lemma {:induction false} RoundsAgree(s: Wizard, k: nat)
    ensures RunAsWritten(s, Rounds(k)) == Run(s, Rounds(k))
  {
    if k > 0 {
      RoundsAgree(s, k - 1);
      RunAsWrittenAppend(s, Rounds(k - 1), Round);
      RunAppend(s, Rounds(k - 1), Round);
      RoundAgrees(Run(s, Rounds(k - 1)));
    }
  }

  /** The scripted exchange: after mounting, six rounds complete the intake with
      exactly the canned profile (name, age, academic level, subject, topic and
      language in script order) and a transcript of the six prompts, each
      followed by its answer. One tap per prompt behaves the same with the
      microphone as written, so this is also what the source does. */
  lemma FullIntakeCompletes()
    ensures RunAsWritten(Mount(InitialWizard), Rounds(6)) == Run(Mount(InitialWizard), Rounds(6))
    ensures var r := Run(Mount(InitialWizard), Rounds(6));
      && IsComplete(r) && r.preferences == MockProfile
      && r.messages == Transcript(6)
  {
    var s0 := Mount(InitialWizard);
    RoundsAgree(s0, 6);
    RunRounds(s0, 6);
    RoundsFromMount(6);
    CannedFieldsMakeMockProfile(AfterRounds(s0, 6).preferences);
  }

  /** A profile whose every field holds the canned answer to the prompt that
      asks for it is the canned profile. */
  lemma CannedFieldsMakeMockProfile(p: UserPreferences)
    requires forall j :: 0 <= j < |ConversationFlow| ==> GetField(p, FieldAt(j)) == MockResponses[j]
    ensures p == MockProfile
  {
    ScriptOrder();
    assert GetField(p, FieldAt(0)) == MockResponses[0];
    assert GetField(p, FieldAt(1)) == MockResponses[1];
    assert GetField(p, FieldAt(2)) == MockResponses[2];
    assert GetField(p, FieldAt(3)) == MockResponses[3];
    assert GetField(p, FieldAt(4)) == MockResponses[4];
    assert GetField(p, FieldAt(5)) == MockResponses[5];
  }

  /** With the corrected microphone, no event ever lowers the step. */
  lemma {:induction false} StepNeverDecreases(s: Wizard, es: seq<WizardEvent>)
    ensures Run(s, es).step >= s.step
    decreases |es|
  {
    if es != [] {
      StepNeverDecreases(Step(s, es[0]), es[1..]);
    }
  }

  /** With the microphone as written, no event ever lowers the step either. */
  lemma {:induction false} AsWrittenStepNeverDecreases(s: Wizard, es: seq<WizardEvent>)
    ensures RunAsWritten(s, es).step >= s.step
    decreases |es|
  {
    if es != [] {
      AsWrittenStepNeverDecreases(StepAsWritten(s, es[0]), es[1..]);
    }
  }

  /** With the microphone as written, two taps on the fifth prompt schedule two
      answers captured at step 4; each advances the step by one, so the step
      ends at 6, past the script, and no later event can complete the intake. */
  lemma {:induction false} DoubleTapOverrunsScript(s: Wizard)
    requires s.step == 4 && s.isListening && s.pendingAnswers == []
    ensures var r := RunAsWritten(s, [MicTap, MicTap, AnswerTimer, AnswerTimer]);
      r.step == 6 && forall es :: !IsComplete(RunAsWritten(r, es))
  {
    ScriptOrder();
    var s1 := TapMicrophoneAsWritten(s);
    var s2 := TapMicrophoneAsWritten(s1);
    assert s2.pendingAnswers == [4, 4];
    var s3 := AnswerDue(s2);
    assert s3.step == 5 && s3.pendingAnswers == [4];
    var s4 := AnswerDue(s3);
    assert s4.step == 6;
    assert RunAsWritten(s, [MicTap, MicTap, AnswerTimer, AnswerTimer]) == s4;
    forall es {
      AsWrittenStepNeverDecreases(s4, es);
    }
  }

  /** The same double tap on the first prompt: both answers are captured at
      step 0 and both write the name, so the step moves to 2 and the age is
      never asked for; it stays empty. */
  lemma {:induction false} DoubleTapSkipsAge(s: Wizard)
    requires s.step == 0 && s.isListening && s.pendingAnswers == [] && s.preferences.age == ""
    ensures var r := RunAsWritten(s, [MicTap, MicTap, AnswerTimer, AnswerTimer]);
      r.step == 2 && r.preferences.name == MockResponses[0] && r.preferences.age == ""
  {
    ScriptOrder();
    var s1 := TapMicrophoneAsWritten(s);
    var s2 := TapMicrophoneAsWritten(s1);
    assert s2.pendingAnswers == [0, 0];
    var s3 := AnswerDue(s2);
    assert s3.step == 1 && s3.pendingAnswers == [0];
    var s4 := AnswerDue(s3);
    assert s4.step == 2;
    assert RunAsWritten(s, [MicTap, MicTap, AnswerTimer, AnswerTimer]) == s4;
  }

  /** The state the double tap starts from is an ordinary one: four rounds
      after mounting, each with its one tap, then the fifth prompt's message
      and listening timer. Both microphones agree on whole rounds
      (`RoundsAgree`) and on the two tap-free timers after them, so the
      program as written reaches it too. */
  lemma FifthPromptListeningIsReachable()
    ensures var s := Run(Mount(InitialWizard), Rounds(4) + [AiMessageTimer, ListenTimer]);
      s.step == 4 && s.isListening && s.pendingAnswers == []
    ensures var s := RunAsWritten(Mount(InitialWizard), Rounds(4) + [AiMessageTimer, ListenTimer]);
      s.step == 4 && s.isListening && s.pendingAnswers == []
  {
    var s0 := Mount(InitialWizard);
    var timers := [AiMessageTimer, ListenTimer];
    RunRounds(s0, 4);
    RoundsFromMount(4);
    RunAppend(s0, Rounds(4), timers);
    var s4 := AfterRounds(s0, 4);
    assert Run(s4, timers) == ListenDue(AiMessageDue(s4));
    RoundsAgree(s0, 4);
    RunAsWrittenAppend(s0, Rounds(4), timers);
    RunAsWrittenAgrees(Run(s0, Rounds(4)), timers);
  }

  /** From entering the page, four ordinary rounds and then a double tap on
      the fifth prompt leave the program as written at step 6, and no later
      events complete the intake. */
  lemma DoubleTapFromMountOverruns()
    ensures var r := RunAsWritten(Mount(InitialWizard),
        Rounds(4) + [AiMessageTimer, ListenTimer] + [MicTap, MicTap, AnswerTimer, AnswerTimer]);
      r.step == 6 && forall es :: !IsComplete(RunAsWritten(r, es))
  {
    var s0 := Mount(InitialWizard);
    var prefix := Rounds(4) + [AiMessageTimer, ListenTimer];
    FifthPromptListeningIsReachable();
    DoubleTapOverrunsScript(RunAsWritten(s0, prefix));
    RunAsWrittenAppend(s0, prefix, [MicTap, MicTap, AnswerTimer, AnswerTimer]);
  }

  /** Runs with no microphone tap are the same for both microphones. */
  lemma {:induction false} RunAsWrittenAgrees(s: Wizard, es: seq<WizardEvent>)
    requires forall k :: 0 <= k < |es| ==> es[k] != MicTap
    ensures RunAsWritten(s, es) == Run(s, es)
    decreases |es|
  {
    if es != [] {
      assert forall k :: 0 <= k < |es[1..]| ==> es[1..][k] == es[k + 1];
      RunAsWrittenAgrees(Step(s, es[0]), es[1..]);
    }
  }

  /** The reception screen: its state fields and the callbacks waiting on its
      timers, changed by the handlers. */
  class ReceptionPage {
    var preferences: UserPreferences
    var messages: seq<ChatMessage>
    var step: int
    var isListening: bool
    var isAiSpeaking: bool
    var pendingAi: seq<string>
    var pendingListen: nat
    var pendingAnswers: seq<int>

    function State(): Wizard
      reads this
    {
      Wizard(preferences, messages, step, isListening, isAiSpeaking, pendingAi, pendingListen, pendingAnswers)
    }

    ghost predicate Valid()
      reads this
    {
      OnScript(State())
    }

    /** The initial state fields and the mount effect. */
    constructor ()
      ensures Valid()
      ensures State() == Mount(InitialWizard)
    {
      preferences, messages, step := EmptyPreferences, [], 0;
      isListening, isAiSpeaking := false, false;
      pendingAi, pendingListen, pendingAnswers := [], 0, [];
      new;
      if step == 0 && |messages| == 0 {
        isAiSpeaking := true;
        pendingAi := pendingAi + [ConversationFlow[0].text];
      }
      MountStartsOnScript();
    }

    method OnAiMessageTimer()
      requires Valid()
      modifies this
      ensures Valid()
      ensures State() == AiMessageDue(old(State()))
    {
      StepKeepsOnScript(State(), AiMessageTimer);
      if pendingAi != [] {
        messages := messages + [ChatMessage(Ai, pendingAi[0])];
        isAiSpeaking := false;
        pendingAi := pendingAi[1..];
        pendingListen := pendingListen + 1;
      }
    }

    method OnListenTimer()
      requires Valid()
      modifies this
      ensures Valid()
      ensures State() == ListenDue(old(State()))
    {
      StepKeepsOnScript(State(), ListenTimer);
      if pendingListen > 0 {
        isListening := true;
        pendingListen := pendingListen - 1;
      }
    }

    method SimulateVoiceInput()
      requires Valid()
      modifies this
      ensures Valid()
      ensures State() == TapMicrophone(old(State()))
    {
      StepKeepsOnScript(State(), MicTap);
      if !isListening {
        return;
      }
      isListening := false;
      pendingAnswers := pendingAnswers + [step];
    }

    method OnAnswerTimer()
      requires Valid()
      modifies this
      ensures Valid()
      ensures State() == AnswerDue(old(State()))
      ensures 0 <= step <= LastStep
    {
      StepKeepsOnScript(State(), AnswerTimer);
      if pendingAnswers == [] {
        return;
      }
      var captured := pendingAnswers[0];
      pendingAnswers := pendingAnswers[1..];
      HandleResponse(MockResponses[captured], captured);
    }

    /** `handleUserResponse`, run by a closure that saw step `captured`. */
    method HandleResponse(text: string, captured: int)
      requires 0 <= captured < |ConversationFlow|
      modifies this
      ensures State() == HandleUserResponse(old(State()), text, captured)
    {
      isListening := false;
      messages := messages + [ChatMessage(User, text)];
      preferences := SetField(preferences, FieldAt(captured), text);
      if captured < LastStep {
        step := step + 1;
        isAiSpeaking := true;
        pendingAi := pendingAi + [ConversationFlow[captured + 1].text];
      }
    }

    /** The "Confirm Profile" button: offered only when the intake is complete,
        it hands over the collected profile. */
    method ConfirmProfile() returns (p: Option<UserPreferences>)
      ensures p.Some? <==> (step == LastStep && preferences.language != "")
      ensures p.Some? ==> p.value == preferences
      ensures Valid() && p.Some? ==> p.value == MockProfile
    {
      if step == LastStep && preferences.language != "" {
        if Valid() {
          CompleteProfileIsMockProfile(State());
        }
        p := Some(preferences);
      } else {
        p := None;
      }
    }
  }
}
