# eKelas: a verified model of the tutoring UI's state rules

eKelas is a React mock-up of an AI tutoring session. It has three pages:
- a welcome page;
- a reception page, where a receptionist asks six scripted questions and the microphone button produces canned spoken answers;
- a "Subject Master" session page, with three floating windows: notes, whiteboard and visual aids.

This project models the state rules under the markup, one Dafny module per source file:

| module | file | source |
|---|---|---|
| `Wrappers`, `Types` | `types.dfy` | `types.ts`: page tag, profile, chat message, subject tags, window record |
| `Constants` | `constants.dfy` | `constants.ts`: the six-step script and the subject gradient table, with the fallback lookup of `components/Sphere.tsx` |
| `WindowManager` | `window_manager.dfy` | `pages/SubjectMasterPage.tsx`: the window list and its five handlers, the next stacking order, the open-window filter |
| `WindowChrome` | `window_chrome.dfy` | `components/FloatingWindow.tsx`: resize clamp, minimized height, which window-manager call each control makes |
| `StrokeCanvas` | `stroke_canvas.dfy` | `components/Whiteboard.tsx`: the stroke state and its handlers, and the redraw order |
| `ReceptionWizard` | `reception.dfy` | `pages/ReceptionPage.tsx`: the intake wizard, with its timers as queues of pending callbacks |
| `PageFlow` | `flow.dfy` | `App.tsx`: the page state machine and the render guard |
| `NotesFormatting` | `notes.dfy` | `components/NotesContent.tsx`: the formatting toolbar |

Each stateful component follows the same pattern:
- A datatype holds its state.
- One pure function per handler is the specification.
- A `class` has the component's state fields as its own fields, and one method per handler. Each method ensures `State() == Handler(old(State()))`.
- Lemmas about the functions state what the component promises. Most of them are about sequences of events.

The timers of the reception page are modelled as events:
- the receptionist's message appearing;
- listening starting;
- a voice answer arriving.

A scheduled callback waits in a queue until its event fires. The delays themselves are not modelled.

## Model

| member | source | states |
|---|---|---|
| Types.SetField | pages/ReceptionPage.tsx:67-68 | the named profile field gets the value; the other five fields are unchanged |
| Constants.FieldAt | constants.ts:21-28 | every script entry names one of the six profile fields, and that field's key is the entry's `field` string |
| Constants.StepOf | constants.ts:21-28 | each profile field is asked for at exactly one step of the script |
| Constants.ScriptOrder | constants.ts:21-28 | the script has six entries, asking for name, age, academicLevel, subject, topic and language in that order |
| Constants.ScriptFieldsDistinct | constants.ts:22-27 | two different steps never fill the same field |
| Constants.SubjectGradient | components/Sphere.tsx:18 | the lookup always yields a non-empty gradient from the table: the subject's own entry if listed, otherwise the General entry |
| Constants.EverySubjectHasColor | constants.ts:12-19 | every subject tag of `SubjectType` has its own entry in the gradient table |
| WindowManager.MaxZIndex | pages/SubjectMasterPage.tsx:58 | the result is at least every window's zIndex and equals one of them (list non-empty) |
| WindowManager.NextZIndex | pages/SubjectMasterPage.tsx:58 | the next zIndex is strictly above every window's, closed windows included, and is exactly max + 1 |
| WindowManager.UpdateMatching | pages/SubjectMasterPage.tsx:32-55 | the map keeps length and order, and applies the update exactly to the records with the matching id |
| WindowManager.Toggle | pages/SubjectMasterPage.tsx:31-40 | only the target record changes. A closed window opens with zIndex max+1. An open, minimized window is restored with zIndex max+1. An open window that is not minimized becomes minimized and keeps its zIndex. A window brought up ends above every other window |
| WindowManager.Close | pages/SubjectMasterPage.tsx:42-44 | only `isOpen` of the target becomes false; position, size, minimized flag and zIndex are kept; other records unchanged |
| WindowManager.Minimize | pages/SubjectMasterPage.tsx:46-48 | only the target's minimized flag is flipped; other records unchanged |
| WindowManager.Focus | pages/SubjectMasterPage.tsx:50-52 | the target gets zIndex max+1, so it is strictly above every other window; nothing else changes |
| WindowManager.Resize | pages/SubjectMasterPage.tsx:54-56 | the target stores exactly the given size, unclamped; no other field or record changes |
| WindowManager.OpenWindows | pages/SubjectMasterPage.tsx:108 | a window is rendered iff it is in the list and open |
| WindowManager.Apply | pages/SubjectMasterPage.tsx:31-56 | every handler keeps the list's length and the ids in order, and changes only records carrying its id |
| WindowManager.InitialWindowsWellFormed | pages/SubjectMasterPage.tsx:19-23 | the initial three windows have distinct ids and distinct zIndex, and all start closed and not minimized |
| WindowManager.ApplyPreservesWellFormed | pages/SubjectMasterPage.tsx:31-58 | every handler keeps ids and zIndex values pairwise distinct |
| WindowManager.UnknownIdIsNoOp | pages/SubjectMasterPage.tsx:32-55 | with an id no window has, every handler leaves the list unchanged |
| WindowManager.MinimizeTwiceRestores | pages/SubjectMasterPage.tsx:47 | minimizing twice gives back the original list |
| WindowManager.ResizeOverwrites | pages/SubjectMasterPage.tsx:55 | a second resize of a window fully overwrites the first |
| WindowManager.CloseThenToggleKeepsGeometry | pages/SubjectMasterPage.tsx:36-43 | closing then toggling reopens the window at the front with its position, size and minimized flag as before |
| WindowManager.ToggleTwiceOnOpenWindow | pages/SubjectMasterPage.tsx:34-35 | on an open, non-minimized window, two toggles restore it, visible and in front of all others |
| WindowManager.Desk.constructor | pages/SubjectMasterPage.tsx:19-23 | the `windows` state starts as the three initial windows |
| WindowManager.Desk.ToggleWindow | pages/SubjectMasterPage.tsx:31-40 | `setWindows` with the toggle map; the list invariant is kept |
| WindowManager.Desk.CloseWindow | pages/SubjectMasterPage.tsx:42-44 | `setWindows` with the close map; the list invariant is kept |
| WindowManager.Desk.MinimizeWindow | pages/SubjectMasterPage.tsx:46-48 | `setWindows` with the minimize map; the list invariant is kept |
| WindowManager.Desk.FocusWindow | pages/SubjectMasterPage.tsx:50-52 | `setWindows` with the focus map; the list invariant is kept |
| WindowManager.Desk.HandleResize | pages/SubjectMasterPage.tsx:54-56 | `setWindows` with the resize map; the list invariant is kept |
| WindowChrome.ResizeTarget | components/FloatingWindow.tsx:30-43 | the requested size is at least 200 x 150 for any pointer delta, including negative ones. Each dimension is exactly start + delta when that reaches the minimum, and the minimum otherwise |
| WindowChrome.DisplayedSize | components/FloatingWindow.tsx:79-80 | the width shown is always the stored width; the height shown is 50 while minimized and the stored height otherwise |
| WindowChrome.BeginResize | components/FloatingWindow.tsx:30-33 | the press captures the pointer and the stored size, so a press with no movement asks for the stored size raised to the minimum; on a minimized window the height comes from the stored size, not the 50 shown |
| WindowChrome.MinimizeKeepsStoredSize | components/FloatingWindow.tsx:79 | minimizing keeps the stored size and shows a 50-high title bar; restoring shows exactly the earlier size |
| WindowChrome.Callbacks | components/FloatingWindow.tsx:40-113 | every call a control makes names the window's own id. A press on the panel focuses it. A press on the resize handle stops propagation, so it makes no call. The title double-click and the minimize button each make one minimize call. The close button makes one close call. A pointer move makes one resize carrying exactly the resize rule's size, at or above the minimum |
| WindowChrome.ApplyAllTouchesOnlyTarget | pages/SubjectMasterPage.tsx:32-55 | a run of calls that all name one window leaves every other window unchanged |
| WindowChrome.ApplyAllPreservesWellFormed | pages/SubjectMasterPage.tsx:31-56 | any run of handler calls keeps ids and zIndex values pairwise distinct |
| WindowChrome.NonRaisingKeepsStacking | pages/SubjectMasterPage.tsx:31-56 | a call that raises nothing (close, minimize, resize, or the toggle that minimizes an open window) leaves every zIndex as it was |
| WindowChrome.FocusBringsToTop | pages/SubjectMasterPage.tsx:50-52 | focusing puts the window in front of every window with another id |
| WindowChrome.ToggleRaiseBringsToTop | pages/SubjectMasterPage.tsx:31-40 | toggling a closed or minimized window in a well-formed list puts it in front of every other window |
| WindowChrome.RaiseBringsToTop | pages/SubjectMasterPage.tsx:31-52 | a focus, or a toggle that opens or restores, puts its window in front of every other window |
| WindowChrome.OthersKeepTop | pages/SubjectMasterPage.tsx:31-56 | a window in front stays in front along any run of calls that raise nothing |
| WindowChrome.LastRaisedIsOnTop | pages/SubjectMasterPage.tsx:31-56 | over any run of open, close, minimize, focus and resize calls from a well-formed list, the window of the last focus, opening or restore is in front of every other window at the end; so when it is visible, it is the visible window on top |
| WindowChrome.ChromeEventTouchesOnlyItsWindow | components/FloatingWindow.tsx:40-113 | no control on one window's frame ever changes another window |
| WindowChrome.ResizeDragHasNoDrift | components/FloatingWindow.tsx:30-43 | the frame's own resize calls for any drag leave the window at exactly the size the last pointer position asks for, at or above the minimum; earlier moves leave no trace |
| WindowChrome.MoveIsResize | components/FloatingWindow.tsx:35-44 | one pointer move is one resize of the window to the size the resize rule gives |
| WindowChrome.DragFromPress | components/FloatingWindow.tsx:25-44 | a drag from a press on the handle ends at the stored size plus the pointer's total displacement, raised to the minimum, whatever moves came between |
| StrokeCanvas.NewStroke | components/Whiteboard.tsx:84-89 | a one-point stroke. The eraser gives width 20 and the eraser flag; the pen gives width 3, the chosen colour and no eraser flag |
| StrokeCanvas.StartStroke | components/Whiteboard.tsx:80-90 | drawing starts with the new stroke in progress; committed strokes, colour and tool unchanged |
| StrokeCanvas.ExtendStroke | components/Whiteboard.tsx:92-99 | while drawing, exactly one point is appended to the stroke in progress and its style is kept; otherwise nothing changes |
| StrokeCanvas.EndStroke | components/Whiteboard.tsx:101-107 | drawing always stops. A stroke in progress is appended to the committed strokes and cleared. Without one (a pointer leaving without a press), the strokes are untouched |
| StrokeCanvas.UndoLast | components/Whiteboard.tsx:134 | removes only the last committed stroke; does nothing on an empty list |
| StrokeCanvas.ClearAll | components/Whiteboard.tsx:140 | empties the committed list and changes nothing else |
| StrokeCanvas.RenderOrder | components/Whiteboard.tsx:42-43 | the strokes painted are the committed ones in commit order, then the stroke in progress if there is one |
| StrokeCanvas.EventsKeepConsistent | components/Whiteboard.tsx:80-140 | every handler keeps "a stroke is in progress iff drawing" |
| StrokeCanvas.ExtendAllAppends | components/Whiteboard.tsx:92-99 | k moves while drawing append exactly those k points, in order, and change nothing else |
| StrokeCanvas.GestureCommitsOneStroke | components/Whiteboard.tsx:80-107 | a press, k moves and a release commit exactly one stroke of k+1 points in the tool's style, after the earlier strokes |
| StrokeCanvas.GesturesCommitInOrder | components/Whiteboard.tsx:80-107 | N complete drags add exactly N strokes, in drag order, each with its drag's points; earlier strokes are kept |
| StrokeCanvas.UndoRevertsCommit | components/Whiteboard.tsx:101-134 | undo right after a release removes exactly the stroke just committed |
| StrokeCanvas.UndoAfterClearIsNoOp | components/Whiteboard.tsx:134-140 | undo after clear changes nothing |
| StrokeCanvas.Whiteboard.constructor | components/Whiteboard.tsx:18-22 | not drawing, no strokes, none in progress, white pen |
| StrokeCanvas.Whiteboard.StartDrawing | components/Whiteboard.tsx:80-90 | the state fields become StartStroke of the old state |
| StrokeCanvas.Whiteboard.Draw | components/Whiteboard.tsx:92-99 | the state fields become ExtendStroke of the old state |
| StrokeCanvas.Whiteboard.StopDrawing | components/Whiteboard.tsx:101-107 | the state fields become EndStroke of the old state |
| StrokeCanvas.Whiteboard.Undo | components/Whiteboard.tsx:134 | the state fields become UndoLast of the old state |
| StrokeCanvas.Whiteboard.Clear | components/Whiteboard.tsx:140 | the state fields become ClearAll of the old state |
| StrokeCanvas.Whiteboard.SelectTool | components/Whiteboard.tsx:114-120 | only the tool changes |
| StrokeCanvas.Whiteboard.PickColor | components/Whiteboard.tsx:129 | only the colour changes |
| StrokeCanvas.Whiteboard.Redraw | components/Whiteboard.tsx:42-43 | the loop over `[...strokes, currentStroke]` paints exactly RenderOrder of the state |
| ReceptionWizard.TriggerAi | pages/ReceptionPage.tsx:41-44 | the receptionist starts speaking and the message is queued; nothing else changes |
| ReceptionWizard.Mount | pages/ReceptionPage.tsx:35-39 | on a fresh page (step 0, empty transcript) the receptionist starts speaking and the first prompt is queued; otherwise nothing changes |
| ReceptionWizard.AiMessageDue | pages/ReceptionPage.tsx:44-54 | the oldest queued message is appended to the transcript as an AI message. Speaking stops and listening is scheduled. Earlier messages are unchanged |
| ReceptionWizard.ListenDue | pages/ReceptionPage.tsx:53 | a scheduled listen turns listening on |
| ReceptionWizard.HandleUserResponse | pages/ReceptionPage.tsx:57-75 | listening stops. One user message is appended. Exactly the field of the captured step gets the text. Below the last step, the step advances by one and the next prompt is queued; at the last step only the language is overwritten and the step stays |
| ReceptionWizard.TapMicrophoneAsWritten | pages/ReceptionPage.tsx:78-94 | when not listening, nothing happens. Otherwise an answer for the current step is queued and listening stays on |
| ReceptionWizard.TapMicrophone | pages/ReceptionPage.tsx:78-94 | when not listening, nothing happens. Otherwise an answer for the current step is queued and listening stops |
| ReceptionWizard.AnswerDue | pages/ReceptionPage.tsx:91-93 | a queued answer runs the response handler with the canned answer of the step it captured |
| ReceptionWizard.IsComplete | pages/ReceptionPage.tsx:96 | complete iff the last prompt is current and the field it asks for (the language) is non-empty |
| ReceptionWizard.Confirm | pages/ReceptionPage.tsx:96 | the profile is handed over iff step = 5 and the language is non-empty, and it is the collected profile |
| ReceptionWizard.MountStartsOnScript | pages/ReceptionPage.tsx:14-39 | on entering, the fields are empty, the step is 0, the transcript is empty, and the first prompt is queued |
| ReceptionWizard.AnswerKeepsOnScript | pages/ReceptionPage.tsx:57-75 | an answer keeps the invariant. Earlier steps hold their canned answers and later ones are empty. At most one callback is in flight and the step stays in 0..5 |
| ReceptionWizard.StepKeepsOnScript | pages/ReceptionPage.tsx:41-94 | every event keeps that invariant |
| ReceptionWizard.RunKeepsOnScript | pages/ReceptionPage.tsx:71-74 | along any sequence of events the invariant holds, so the step always lies in 0..5 |
| ReceptionWizard.CompleteProfileIsMockProfile | pages/ReceptionPage.tsx:82-96 | a complete intake holds the six canned answers in name, age, academicLevel, subject, topic, language order |
| ReceptionWizard.IncompleteBeforeLastAnswer | pages/ReceptionPage.tsx:96 | before the last step the intake is not complete and the language is still empty |
| ReceptionWizard.SecondTapIsNoOp | pages/ReceptionPage.tsx:79 | with the disarming microphone, a second tap does nothing |
| ReceptionWizard.RoundAnswers | pages/ReceptionPage.tsx:41-94 | a round is a prompt, listening, a tap and an answer. It records the canned answer in exactly the prompt's field and appends prompt and answer to the transcript. It then queues the next prompt, or at the last step stays |
| ReceptionWizard.Transcript | pages/ReceptionPage.tsx:45-64 | the transcript of k rounds has 2k messages, alternating each prompt and its canned answer |
| ReceptionWizard.RoundsFromMount | pages/ReceptionPage.tsx:14-96 | after k rounds from entering: the first k fields hold their answers, the transcript is Transcript(k), and the step is k (5 once finished) |
| ReceptionWizard.FullIntakeCompletes | pages/ReceptionPage.tsx:82-96 | six rounds from entering complete the intake with exactly the canned profile and the twelve-message transcript; the microphone as written gives the same state |
| ReceptionWizard.RoundAgrees | pages/ReceptionPage.tsx:57-93 | from any state, one round (prompt, listen, one tap, answer) gives the same state with the microphone as written and the disarming one |
| ReceptionWizard.RoundsAgree | pages/ReceptionPage.tsx:57-93 | any number of whole rounds gives the same state with either microphone |
| ReceptionWizard.CannedFieldsMakeMockProfile | constants.ts:22-27 | a profile whose every scripted field holds its canned answer is the canned profile |
| ReceptionWizard.DoubleTapOverrunsScript | pages/ReceptionPage.tsx:71-93 | as written, two taps while listening at step 4 lead to step 6, past the script, and no later sequence of events completes the intake |
| ReceptionWizard.AsWrittenStepNeverDecreases | pages/ReceptionPage.tsx:71-74 | as written, no event ever lowers the step |
| ReceptionWizard.StepNeverDecreases | pages/ReceptionPage.tsx:71-74 | with the corrected microphone, no event ever lowers the step |
| ReceptionWizard.DoubleTapSkipsAge | pages/ReceptionPage.tsx:67-93 | as written, two taps at the first prompt write the name twice and move to step 2, leaving the age empty |
| ReceptionWizard.FifthPromptListeningIsReachable | pages/ReceptionPage.tsx:35-94 | listening at step 4 with no answer queued is reached from entering the page by four ordinary rounds (one tap each) and the fifth prompt's two timers, with the microphone as written and with the corrected one |
| ReceptionWizard.DoubleTapFromMountOverruns | pages/ReceptionPage.tsx:35-94 | as written, entering the page, four ordinary rounds, then a double tap on the fifth prompt end at step 6, and no later sequence of events completes the intake |
| ReceptionWizard.RunAsWrittenAgrees | pages/ReceptionPage.tsx:78-94 | runs without a tap behave the same with either microphone |
| ReceptionWizard.ReceptionPage.constructor | pages/ReceptionPage.tsx:14-39 | the state fields start empty and the mount effect queues the first prompt |
| ReceptionWizard.ReceptionPage.OnAiMessageTimer | pages/ReceptionPage.tsx:44-54 | the fields become AiMessageDue of the old state; the invariant is kept |
| ReceptionWizard.ReceptionPage.OnListenTimer | pages/ReceptionPage.tsx:53 | the fields become ListenDue of the old state; the invariant is kept |
| ReceptionWizard.ReceptionPage.SimulateVoiceInput | pages/ReceptionPage.tsx:78-94 | the fields become TapMicrophone of the old state; the invariant is kept |
| ReceptionWizard.ReceptionPage.OnAnswerTimer | pages/ReceptionPage.tsx:91-93 | the fields become AnswerDue of the old state; the invariant is kept |
| ReceptionWizard.ReceptionPage.HandleResponse | pages/ReceptionPage.tsx:57-75 | the fields become HandleUserResponse of the old state |
| ReceptionWizard.ReceptionPage.ConfirmProfile | pages/ReceptionPage.tsx:169-173 | returns the profile iff the intake is complete, and then it is the canned profile |
| PageFlow.Start | App.tsx:12-14 | moves to reception; the profile is unchanged |
| PageFlow.ReceptionComplete | App.tsx:16-19 | stores exactly the profile given and moves to master |
| PageFlow.BackToWelcome | App.tsx:21-24 | moves to welcome and clears the profile |
| PageFlow.ExitSession | App.tsx:26-29 | moves to reception and keeps the profile |
| PageFlow.Rendered | App.tsx:33-78 | at most one page is rendered. Welcome is rendered iff the page is welcome, and reception iff it is reception. The session page with profile p is rendered iff the page is master and p is held. Nothing is rendered iff the page is master with no profile |
| PageFlow.Wired | App.tsx:43-74 | a page raises only its own handler: start iff the welcome page is rendered, confirm iff the reception page is, exit iff the session page is; nothing ever raises the return to welcome. The welcome page's button calls `onStart`, the reception page's confirm button calls `onComplete`, and the session page's exit button calls `onExit`; `onBack` is passed to the reception page and never called |
| PageFlow.HandlersKeepCoherent | App.tsx:12-29 | every handler leaves "master implies a profile" true, and then exactly one page is rendered |
| PageFlow.RunKeepsOnePage | App.tsx:9-29 | along any sequence of handler calls exactly one page stays rendered. The profile held is the one from the last confirmation, unless a return to welcome came after it |
| PageFlow.WiredRunsKeepProfile | pages/ReceptionPage.tsx:13 | no page calls `onBack`, so a profile, once held, stays held along any run of events the pages raise |
| PageFlow.HappyPath | App.tsx:12-19 | start, then the scripted intake with the microphone as written and confirm, renders the session page with the canned profile. Its subject "Science." is not a table key, so the avatar uses the General gradient |
| PageFlow.App.constructor | App.tsx:9-10 | the welcome page, no profile |
| PageFlow.App.HandleStart | App.tsx:12-14 | the fields become Start of the old state |
| PageFlow.App.HandleReceptionComplete | App.tsx:16-19 | the fields become ReceptionComplete of the old state |
| PageFlow.App.HandleBackToWelcome | App.tsx:21-24 | the fields become BackToWelcome of the old state |
| PageFlow.App.HandleExitSession | App.tsx:26-29 | the fields become ExitSession of the old state |
| PageFlow.App.Render | App.tsx:34-63 | the three guarded blocks render exactly Rendered of the state, which is one page |
| NotesFormatting.Decrease | components/NotesContent.tsx:32 | the size becomes max(10, size - 2) and is never below 10; nothing else changes |
| NotesFormatting.Increase | components/NotesContent.tsx:36 | the size becomes min(32, size + 2) and is never above 32; nothing else changes |
| NotesFormatting.ToggleBold | components/NotesContent.tsx:44 | only the bold flag flips |
| NotesFormatting.ToggleItalic | components/NotesContent.tsx:51 | only the italic flag flips |
| NotesFormatting.SetAlign | components/NotesContent.tsx:62-69 | only the alignment changes, to the chosen one |
| NotesFormatting.SetFamily | components/NotesContent.tsx:18-20 | only the font family changes, to the chosen one |
| NotesFormatting.ClickKeepsSizeOnGrid | components/NotesContent.tsx:32-36 | every control keeps the size even and within [10, 32] |
| NotesFormatting.ClicksKeepSizeOnGrid | components/NotesContent.tsx:32-36 | any sequence of clicks keeps the size even and within [10, 32] |
| NotesFormatting.InitialSizeOnGrid | components/NotesContent.tsx:5-36 | from the initial 14, every sequence of clicks leaves an even size in [10, 32] |
| NotesFormatting.RepeatedClicksSaturate | components/NotesContent.tsx:32-36 | enough minus clicks reach exactly 10 and enough plus clicks reach exactly 32 |
| NotesFormatting.ToggleTwiceRestores | components/NotesContent.tsx:44-51 | toggling bold, or italic, twice restores the format |
| NotesFormatting.SetAlignIdempotent | components/NotesContent.tsx:62-69 | setting an alignment twice equals setting it once, and font settings are untouched |
| NotesFormatting.PlusMinusCancel | components/NotesContent.tsx:32-36 | inside the range, minus undoes plus and plus undoes minus |
| NotesFormatting.NotesContent.constructor | components/NotesContent.tsx:5-9 | size 14, sans, not bold, not italic, left-aligned |
| NotesFormatting.NotesContent.OnMinus | components/NotesContent.tsx:32 | the fields become Decrease of the old state; the size stays on the grid |
| NotesFormatting.NotesContent.OnPlus | components/NotesContent.tsx:36 | the fields become Increase of the old state; the size stays on the grid |
| NotesFormatting.NotesContent.OnBold | components/NotesContent.tsx:44 | the fields become ToggleBold of the old state |
| NotesFormatting.NotesContent.OnItalic | components/NotesContent.tsx:51 | the fields become ToggleItalic of the old state |
| NotesFormatting.NotesContent.OnAlign | components/NotesContent.tsx:62-69 | the fields become SetAlign of the old state |
| NotesFormatting.NotesContent.OnFamilyChange | components/NotesContent.tsx:20 | the fields become SetFamily of the old state |

## Left out

- Canvas painting (`components/Whiteboard.tsx:26-66`): clearing, composite modes and canvas resizing are browser calls. Only the order in which strokes are painted is modelled.
- `getPos` (`components/Whiteboard.tsx:68-78`) reads the DOM. Points are inputs.
- Timer delays: the 1500 ms, 500 ms and 1000 ms waits are not modelled. Each timer is an event, and callbacks wait in order of scheduling.
- `Date.now()` message ids and timestamps are not modelled. A transcript message is its sender and text.
- The auto-scroll effect (`pages/ReceptionPage.tsx:30-32`) is not modelled.
- Installing and removing the global pointer listeners for resizing (`components/FloatingWindow.tsx:47-53`) is event plumbing. A drag is modelled as its sequence of pointer moves.
- Dragging a window, springs and animations (framer-motion) are not modelled. The app code never updates a window's position.
- `pages/WelcomePage.tsx` is presentation with random particle placement. `components/Sphere.tsx` is animation; its one colour lookup is `Constants.SubjectGradient`.
- The session page's chat sidebar, exit-confirm modal, session-name input and mic toggle (`pages/SubjectMasterPage.tsx:16-29,60-251`) are plain UI flags and are not modelled. Only "confirm exit" calls `onExit`, which is the `ExitConfirmed` event.
- Numbers: JavaScript numbers are floats. Coordinates, sizes, zIndex and font sizes are `int` here.
- Constants.SubjectGradient: the lookup is on a plain object, so keys such as `constructor` would find inherited properties. The model treats the table as a map with only its six keys.
- ReceptionWizard.AnswerDue: an answer captured at a step past the script reads `undefined` as its text, and the handler then throws while reading the script. The model keeps only "listening is turned off". This path is reachable only with the microphone as written.
- The reception page's example answers: the code's canned answers ("I'm Alex.", "I am 16 years old.", ...) are modelled, not any other sample answers.
- WindowManager.Resize: it stores the size unclamped, as `handleResize` does. The 200 x 150 minimum is applied by the chrome before the call (`WindowChrome.ResizeTarget`).
- WindowManager.NextZIndex: the stacking order is recomputed as the maximum over all windows plus one, as the code does. There is no separate counter.
- The whiteboard's `draw` and `stopDrawing` read `currentStroke` and `strokes` from the render in which they were created (`components/Whiteboard.tsx:93-97,103`). The model applies each pointer event to the state the previous event left, as if the page re-rendered between events. Two moves handled before a re-render would both extend the same older stroke, so one point would be lost. `StrokeCanvas.ExtendStroke`, `StrokeCanvas.EndStroke`, `StrokeCanvas.ExtendAllAppends`, `StrokeCanvas.GestureCommitsOneStroke` and `StrokeCanvas.GesturesCommitInOrder` do not model that case.
- `getNextZIndex` reads the list of the render in which the handler was created, not the `prev` list the map receives. Handlers here run one at a time on the current list, where the two agree.
- ReceptionWizard.ReceptionPage.SimulateVoiceInput: the class uses the corrected microphone, which stops listening when tapped (see Findings). The as-written microphone is modelled as functions only.
- Leaving the reception page unmounts it. When it is shown again its state starts afresh (`Mount(InitialWizard)`). `PageFlow` does not carry the wizard state across pages. Confirming exit likewise unmounts the session page, so its windows, whiteboard strokes and notes formatting start afresh from their initial values when it is shown again. `PageFlow` carries none of that state, and the model states nothing about it surviving or not surviving an exit. Only open windows are rendered, so closing the notes or whiteboard window also unmounts its content, and reopening it starts that content afresh; `NotesFormatting.NotesContent` and `StrokeCanvas.Whiteboard` model one mounting each.

## Findings

| source | as written | input that shows it | evidently intended | confidence | as-written member | corrected member |
|---|---|---|---|---|---|---|
| pages/ReceptionPage.tsx:71-93 | `simulateVoiceInput` schedules an answer but leaves listening on. Each scheduled answer runs `setStep(prev => prev + 1)` with the step its render captured. | While listening at step 4 (topic), tap the microphone twice within a second. Both answers are captured at step 4. The step becomes 6, past the six-entry script. `isComplete` (step = 5) can then never hold, and a further tap reads answer 6, which does not exist. The same double tap at the first prompt moves to step 2 and leaves the age empty. | One tap per prompt: tapping disarms listening, and the step stays in 0..5 so the intake completes. | not executed | ReceptionWizard.DoubleTapOverrunsScript | ReceptionWizard.RunKeepsOnScript |
