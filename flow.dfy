/** The page flow of the application: a three-page state machine (welcome,
    reception, master) carrying the learner's profile once the reception
    intake hands it over. */
module PageFlow {
  import opened Wrappers
  import opened Types
  import opened Constants
  import opened ReceptionWizard

  /** The application's two state fields. */
  datatype AppState = AppState(page: PageState, prefs: Option<UserPreferences>)

  /** The state on start: the welcome page, no profile. */
  const InitialApp := AppState(Welcome, None)

  /** `handleStart`: on to the reception page; the profile is untouched. */
  function Start(s: AppState): (r: AppState)
    ensures r.page == Reception && r.prefs == s.prefs
  {
    s.(page := Reception)
  }

  /** `handleReceptionComplete`: the profile handed over is stored as given
      and the session page follows. */
  function ReceptionComplete(s: AppState, p: UserPreferences): (r: AppState)
    ensures r.page == Master && r.prefs == Some(p)
  {
    AppState(Master, Some(p))
  }

  /** `handleBackToWelcome`: back to the welcome page, the profile forgotten. */
  function BackToWelcome(s: AppState): (r: AppState)
    ensures r.page == Welcome && r.prefs == None
  {
    AppState(Welcome, None)
  }

  /** `handleExitSession`: back to the reception page; the profile is kept. */
  function ExitSession(s: AppState): (r: AppState)
    ensures r.page == Reception && r.prefs == s.prefs
  {
    s.(page := Reception)
  }

  /** The pages the root can render. */
  datatype Screen = WelcomeScreen | ReceptionScreen | SessionScreen(profile: UserPreferences)

  /** The pages rendered, in the order of the three guarded blocks: welcome
      when the page is welcome, reception when it is reception, and the
      session page only when the page is master and a profile is present. */
  function Rendered(s: AppState): (r: seq<Screen>)
    ensures |r| <= 1
    ensures r == [WelcomeScreen] <==> s.page == Welcome
    ensures r == [ReceptionScreen] <==> s.page == Reception
    ensures (forall p :: r == [SessionScreen(p)] <==> s.page == Master && s.prefs == Some(p))
    ensures r == [] <==> s.page == Master && s.prefs.None?
  {
    var welcome := if s.page == Welcome then [WelcomeScreen] else [];
    var reception := if s.page == Reception then [ReceptionScreen] else [];
    var session := if s.page == Master && s.prefs.Some? then [SessionScreen(s.prefs.value)] else [];
    assert s.page.Welcome? || s.page.Reception? || s.page.Master?;
    assert |welcome + reception + session| == |welcome| + |reception| + |session|;
    assert welcome + reception + session == (if welcome != [] then welcome else if reception != [] then reception else session);
    welcome + reception + session
  }

  /** The handlers, as the events that call them. */
  datatype AppEvent =
    | StartClicked
    | ProfileConfirmed(profile: UserPreferences)
    | BackRequested
    | ExitConfirmed

  function Handle(s: AppState, e: AppEvent): AppState
  {
    match e
    case StartClicked => Start(s)
    case ProfileConfirmed(p) => ReceptionComplete(s, p)
    case BackRequested => BackToWelcome(s)
    case ExitConfirmed => ExitSession(s)
  }

  /** Whether the page on screen can raise an event: the welcome page calls
      `onStart`, the reception page `onComplete`, the session page `onExit`.
      The reception page receives `onBack` but never calls it, so no page
      raises BackRequested. */
  predicate Wired(s: AppState, e: AppEvent): (w: bool)
    ensures e.BackRequested? ==> !w
    ensures e.StartClicked? ==> (w <==> Rendered(s) == [WelcomeScreen])
    ensures e.ProfileConfirmed? ==> (w <==> Rendered(s) == [ReceptionScreen])
    ensures e.ExitConfirmed? ==> (w <==> s.prefs.Some? && Rendered(s) == [SessionScreen(s.prefs.value)])
  {
    match e
    case StartClicked => s.page == Welcome
    case ProfileConfirmed(_) => s.page == Reception
    case BackRequested => false
    case ExitConfirmed => s.page == Master && s.prefs.Some?
  }

  /** The session page is never selected without a profile. */
  ghost predicate Coherent(s: AppState)
  {
    s.page == Master ==> s.prefs.Some?
  }

  /** Every handler, called from any state, leaves the state coherent, and in
      a coherent state exactly one page is rendered. */
  lemma HandlersKeepCoherent(s: AppState, e: AppEvent)
    ensures Coherent(Handle(s, e))
    ensures Coherent(s) ==> |Rendered(s)| == 1
  {
  }

  /** Events applied in order. */
  function RunApp(s: AppState, es: seq<AppEvent>): AppState
    decreases |es|
  {
    if es == [] then s else RunApp(Handle(s, es[0]), es[1..])
  }

  /** The profile the state holds after a run, defined from the events alone:
      the one carried by the last confirmation not followed by a return to the
      welcome page; the starting profile if there is neither. */
  function LastProfile(start: Option<UserPreferences>, es: seq<AppEvent>): Option<UserPreferences>
    decreases |es|
  {
    if es == [] then start
    else if es[|es| - 1].ProfileConfirmed? then Some(es[|es| - 1].profile)
    else if es[|es| - 1].BackRequested? then None
    else LastProfile(start, es[..|es| - 1])
  }

  lemma {:induction false} RunAppSnoc(s: AppState, es: seq<AppEvent>, e: AppEvent)
    ensures RunApp(s, es + [e]) == Handle(RunApp(s, es), e)
    decreases |es|
  {
    if es == [] {
      assert es + [e] == [e];
    } else {
      assert (es + [e])[1..] == es[1..] + [e];
      RunAppSnoc(Handle(s, es[0]), es[1..], e);
    }
  }

  /** From any starting state, any run leaves exactly one page rendered as
      soon as the start is coherent, and the profile held is the one the last
      confirmation handed over, unless a return to the welcome page came
      after it. */
  lemma {:induction false} RunKeepsOnePage(s: AppState, es: seq<AppEvent>)
    requires Coherent(s)
    ensures Coherent(RunApp(s, es)) && |Rendered(RunApp(s, es))| == 1
    ensures RunApp(s, es).prefs == LastProfile(s.prefs, es)
    decreases |es|
  {
    if es != [] {
      var init := es[..|es| - 1];
      var e := es[|es| - 1];
      assert es == init + [e];
      RunKeepsOnePage(s, init);
      RunAppSnoc(s, init, e);
      HandlersKeepCoherent(RunApp(s, init), e);
      HandlersKeepCoherent(RunApp(s, es), StartClicked);
    }
  }

  /** Every event of a run is raised by the page on screen when it happens. */
  predicate WiredRun(s: AppState, es: seq<AppEvent>)
    decreases |es|
  {
    es == [] || (Wired(s, es[0]) && WiredRun(Handle(s, es[0]), es[1..]))
  }

  /** Since no page calls `onBack`, nothing the user can do forgets a profile
      once one has been confirmed: along any run of wired events, a profile
      held stays held, and the session page is reached only with it. */
  lemma {:induction false} WiredRunsKeepProfile(s: AppState, es: seq<AppEvent>)
    requires WiredRun(s, es) && s.prefs.Some?
    ensures RunApp(s, es).prefs.Some?
    ensures forall e :: e in es ==> e != BackRequested
    decreases |es|
  {
    if es != [] {
      WiredRunsKeepProfile(Handle(s, es[0]), es[1..]);
      assert es == [es[0]] + es[1..];
    }
  }

  /** The whole happy path: start, the scripted intake on a freshly mounted
      reception page (one tap per prompt, with the microphone as written),
      then "Confirm Profile". The session page is rendered
      with exactly the canned profile; its subject, "Science.", is not a key of
      the colour table, so the avatar falls back to the General gradient. */
  lemma HappyPath()
    ensures var done := RunAsWritten(Mount(InitialWizard), Rounds(6));
      && Confirm(done) == Some(MockProfile)
      && Rendered(ReceptionComplete(Start(InitialApp), MockProfile)) == [SessionScreen(MockProfile)]
      && SubjectGradient(MockProfile.subject) == SubjectColors["General"]
  {
    FullIntakeCompletes();
    assert MockProfile.subject == "Science.";
    assert "Science." !in SubjectColors;
  }

  /** The root component: its two state fields, set by the four handlers. */
  class App {
    var currentPage: PageState
    var userPreferences: Option<UserPreferences>

    function State(): AppState
      reads this
    {
      AppState(currentPage, userPreferences)
    }

    ghost predicate Valid()
      reads this
    {
      Coherent(State())
    }

    constructor ()
      ensures Valid() && State() == InitialApp
    {
      currentPage, userPreferences := Welcome, None;
    }

    method HandleStart()
      requires Valid()
      modifies this
      ensures Valid() && State() == Start(old(State()))
    {
      currentPage := Reception;
    }

    method HandleReceptionComplete(p: UserPreferences)
      requires Valid()
      modifies this
      ensures Valid() && State() == ReceptionComplete(old(State()), p)
    {
      userPreferences := Some(p);
      currentPage := Master;
    }

    method HandleBackToWelcome()
      requires Valid()
      modifies this
      ensures Valid() && State() == BackToWelcome(old(State()))
    {
      currentPage := Welcome;
      userPreferences := None;
    }

    method HandleExitSession()
      requires Valid()
      modifies this
      ensures Valid() && State() == ExitSession(old(State()))
    {
      currentPage := Reception;
    }

    /** The page-render guard: the screens the root renders now. */
    method Render() returns (shown: seq<Screen>)
      requires Valid()
      ensures shown == Rendered(State()) && |shown| == 1
    {
      shown := [];
      if currentPage == Welcome {
        shown := shown + [WelcomeScreen];
      }
      if currentPage == Reception {
        shown := shown + [ReceptionScreen];
      }
      if currentPage == Master && userPreferences.Some? {
        shown := shown + [SessionScreen(userPreferences.value)];
      }
    }
  }
}
