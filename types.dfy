/** The optional value used wherever the source has `T | null`. */
module Wrappers {
  datatype Option<+T> = None | Some(value: T)
}

/** The application's shared record types: the screen tag, the six-field learner
    profile, a transcript message, the subject tags and one floating window. */
module Types {

  /** The three screens of the application. */
  datatype PageState = Welcome | Reception | Master

  /** The profile collected by the reception wizard: six free-text fields. */
  datatype UserPreferences = UserPreferences(
    name: string,
    age: string,
    academicLevel: string,
    subject: string,
    topic: string,
    language: string)

  /** The key of one profile field. */
  datatype PrefField = Name | Age | AcademicLevel | Subject | Topic | Language

  const EmptyPreferences := UserPreferences("", "", "", "", "", "")

  function GetField(p: UserPreferences, f: PrefField): string
  {
    match f
    case Name => p.name
    case Age => p.age
    case AcademicLevel => p.academicLevel
    case Subject => p.subject
    case Topic => p.topic
    case Language => p.language
  }

  /** `{ ...p, [f]: v }`: the named field becomes `v`, every other field is kept. */
  function SetField(p: UserPreferences, f: PrefField, v: string): (r: UserPreferences)
    ensures GetField(r, f) == v
    ensures forall g: PrefField :: g != f ==> GetField(r, g) == GetField(p, g)
  {
    match f
    case Name => p.(name := v)
    case Age => p.(age := v)
    case AcademicLevel => p.(academicLevel := v)
    case Subject => p.(subject := v)
    case Topic => p.(topic := v)
    case Language => p.(language := v)
  }

  /** Who wrote a transcript message. */
  datatype Sender = Ai | User

  /** One transcript entry. The source's `id` and `timestamp` come from the clock
      and are not part of the model. */
  datatype ChatMessage = ChatMessage(sender: Sender, text: string)

  datatype SubjectType = Math | Science | History | LanguageArts | Art | General
  {
    /** The tag as the source spells it (the constructor for `Language` is
        renamed here only because `Language` is also a profile field). */
    function Tag(): string
    {
      match this
      case Math => "Math"
      case Science => "Science"
      case History => "History"
      case LanguageArts => "Language"
      case Art => "Art"
      case General => "General"
    }
  }

  /** The content kind a window shows. */
  datatype WindowKind = NotesKind | WhiteboardKind | VisualsKind

  datatype Position = Position(x: int, y: int)
  datatype Size = Size(width: int, height: int)

  /** One floating window of the session screen. Coordinates, sizes and the
      stacking order are whole numbers here. */
  datatype WindowState = WindowState(
    id: string,
    title: string,
    isOpen: bool,
    isMinimized: bool,
    position: Position,
    size: Size,
    zIndex: int,
    kind: WindowKind)
}
