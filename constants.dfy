/** The fixed tables: the reception wizard's six-step script and the gradient
    assigned to each subject. */
module Constants {
  import opened Wrappers
  import opened Types

  /** One prompt of the scripted conversation and the profile key it fills,
      spelled as in the source. */
  datatype ScriptEntry = ScriptEntry(text: string, field: string)

  const ConversationFlow: seq<ScriptEntry> := [
    ScriptEntry("Hello! I'm your AI Receptionist. Let's get you set up. What is your name?", "name"),
    ScriptEntry("Nice to meet you. How old are you?", "age"),
    ScriptEntry("Great. What is your current academic level?", "academicLevel"),
    ScriptEntry("Understood. Which subject would you like to study today?", "subject"),
    ScriptEntry("Excellent choice. Is there a specific topic within that subject?", "topic"),
    ScriptEntry("Finally, what is your preferred language for this session?", "language")
  ]

  /** Index of the last prompt. */
  const LastStep := |ConversationFlow| - 1

  /** The profile field a key names, as `keyof UserPreferences`; None for any
      other string. */
  function PrefFieldNamed(key: string): Option<PrefField>
  {
    if key == "name" then Some(Name)
    else if key == "age" then Some(Age)
    else if key == "academicLevel" then Some(AcademicLevel)
    else if key == "subject" then Some(Subject)
    else if key == "topic" then Some(Topic)
    else if key == "language" then Some(Language)
    else None
  }

  /** The key under which each profile field is written. */
  function KeyOf(f: PrefField): string
  {
    match f
    case Name => "name"
    case Age => "age"
    case AcademicLevel => "academicLevel"
    case Subject => "subject"
    case Topic => "topic"
    case Language => "language"
  }

  /** The field filled at a step of the script: every script entry names a
      real profile field. */
  function FieldAt(step: int): (f: PrefField)
    requires 0 <= step < |ConversationFlow|
    ensures PrefFieldNamed(ConversationFlow[step].field) == Some(f)
    ensures KeyOf(f) == ConversationFlow[step].field
  {
    match ConversationFlow[step].field
    case "name" => Name
    case "age" => Age
    case "academicLevel" => AcademicLevel
    case "subject" => Subject
    case "topic" => Topic
    case _ => Language
  }

  /** The step at which a field is asked for: the inverse of FieldAt, so each
      field is asked exactly once. */
  function StepOf(f: PrefField): (step: int)
    ensures 0 <= step < |ConversationFlow|
    ensures FieldAt(step) == f
    ensures forall i :: 0 <= i < |ConversationFlow| && FieldAt(i) == f ==> i == step
  {
    match f
    case Name => 0
    case Age => 1
    case AcademicLevel => 2
    case Subject => 3
    case Topic => 4
    case Language => 5
  }

  /** The script has six prompts, asking in turn for name, age, academic
      level, subject, topic and language. */
  lemma ScriptOrder()
    ensures |ConversationFlow| == 6 && LastStep == 5
    ensures seq(6, i requires 0 <= i < 6 => FieldAt(i)) == [Name, Age, AcademicLevel, Subject, Topic, Language]
  {
  }

  /** No two prompts fill the same field. */
  lemma ScriptFieldsDistinct(i: int, j: int)
    requires 0 <= i < |ConversationFlow| && 0 <= j < |ConversationFlow| && i != j
    ensures FieldAt(i) != FieldAt(j)
  {
    assert StepOf(FieldAt(i)) == i && StepOf(FieldAt(j)) == j;
  }

  const SubjectColors: map<string, string> := map[
    "Math" := "from-blue-500 to-cyan-400",
    "Science" := "from-emerald-500 to-green-400",
    "History" := "from-amber-500 to-orange-400",
    "Language" := "from-purple-500 to-pink-400",
    "Art" := "from-rose-500 to-red-400",
    "General" := "from-indigo-500 to-violet-400"
  ]

  /** The avatar's gradient for a subject: the table entry, or the `General`
      entry for a subject the table does not list. */
  function SubjectGradient(subject: string): (g: string)
    ensures g in SubjectColors.Values && g != ""
    ensures subject in SubjectColors ==> g == SubjectColors[subject]
    ensures subject !in SubjectColors ==> g == SubjectColors["General"]
  {
    if subject in SubjectColors && SubjectColors[subject] != "" then SubjectColors[subject]
    else SubjectColors["General"]
  }

  /** Every subject tag has its own entry in the table. */
  lemma EverySubjectHasColor(t: SubjectType)
    ensures t.Tag() in SubjectColors
    ensures SubjectGradient(t.Tag()) == SubjectColors[t.Tag()]
  {
  }
}
