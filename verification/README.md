# Exam portal front end: session, violation monitor and theme, in Dafny

This project models the sequential logic under a small React exam portal:

- **The exam session** (`ExamSession`, `exam_session.dfy`): the start guard,
  the session identifier `exam_{examId}_{username}_{T}` where T is the ISO
  timestamp with every `-`, `:` and `.` removed, and the guard that decides
  whether a `POST /log_data` body `{source: 'web', student_id, session_id,
  alerts: [message]}` is built.
- **The live exam page** (`ExamLive`, `exam_live.dfy`): the class `ExamPage`
  with `examStarted`, the session-id ref and the single `visibilitychange`
  listener, which is registered only for a started exam and reports
  `WEB: Switched tabs` only for a hidden document.
- **The disabled violation monitor** (`ExamMonitor`, `exam_monitor.dfy`): the
  variant that sits commented out at the end of `ExamPage.jsx`. It is kept
  apart from the live page. Nine listeners map copy, cut, paste, context
  menu, Ctrl/Cmd + v/c/x/s/p, F12, a hidden document, window blur, leaving
  fullscreen and unload to labels. A counter counts the violations, and a
  global 1500 ms window in `lastAlertTsRef` throttles the alerts. The pure
  functions `StartExam`, `RunEffect`, `Cleanup`, `HandleEvent`, `SendAlert`
  and `Run` over `MonitorState` specify the class `Monitor`, whose methods
  update its fields the way the page updates its state and refs.
- **The theme provider** (`Theme`, `theme.dfy`): the initial theme, taken
  from local storage or the default. The layout effect rewrites the root
  element's light/dark class. The OS colour-scheme handler acts only in
  `system` mode. `setTheme` writes storage and then state. The root's class
  list is a `set<string>` and local storage a `map<string, string>`.
- **The theme menu** (`Toggle`, `toggle.dfy`): the effective theme, the
  sun/moon icon, and the `open` flag driven by the button, a document click,
  Escape and the choice of an item.
- `JsStrings` (`js_strings.dfy`) holds the JavaScript pieces these need:
  null-or-value, string truthiness, and `toLowerCase`/`toUpperCase`.

Inputs that the browser supplies become parameters: the clock (`now`, the
ISO string), `document.hidden`, `document.fullscreenElement`, the key event's
`key`/`ctrlKey`/`metaKey`, the colour-scheme preference, whether a click
target lies inside the menu, whether `window` exists, and whether a storage
access throws. Every `POST /log_data` request is recorded by appending its
body to the ghost sequence `sent`.

Three facts about the code that are easy to get wrong:

- `lastAlertTsRef` starts at 0. With the clock itself at 0, a copy at 0 and
  a paste at 500 ms both fall inside that first window, and of copy, paste
  and cut (at 2000 ms) only the cut is sent, although all three are
  counted (`ScenarioWithClockAtZero`). With a clock past 1500 ms the copy
  and the cut are sent (`ScenarioWithRunningClock`).
- Only the timestamp part of the session identifier is stripped of `-`,
  `:` and `.`. Punctuation in the exam id or the user name survives
  (`SessionIdKeepsExamIdPunctuation`).
- The menu's icon is computed during render, from the root's class list,
  while the provider's layout effect changes that list after the render and
  sets no state. After switching from dark to `system` with the OS
  preferring light, the moon keeps showing although the root now has
  `light`, until some later render (`IconLagsAfterSwitchToSystem`). The
  same lag follows the OS colour-scheme handler and the first mount.
  `EffectiveMatchesAppliedClass` and `MoonIffDarkMode` hold at any later
  render.
- Unmounting removes the listeners while `examStarted` stays true, so the
  listeners are not registered exactly when the exam has started. The
  invariant `Consistent` states only "registered ⇒ started", plus "all
  nine or none".

## Model

| member | source | states |
|---|---|---|
| `JsStrings.ToLower` | frontend/src/pages/ExamPage.jsx:378 | the ASCII `toLowerCase` keeps the length, lowers each character, and leaves no upper-case letter |
| `JsStrings.ToUpper` | frontend/src/pages/ExamPage.jsx:384 | the ASCII `toUpperCase` keeps the length, raises each character, and leaves no lower-case letter |
| `ExamSession.StripIsoPunct` | frontend/src/pages/ExamPage.jsx:86 | the stripped timestamp is no longer than the original and contains no `-`, `:` or `.` |
| `ExamSession.StripKeepsOtherCharacters` | frontend/src/pages/ExamPage.jsx:86 | every other character occurs in the stripped timestamp exactly as often as in the original |
| `ExamSession.StripConcat` | frontend/src/pages/ExamPage.jsx:86 | stripping distributes over concatenation, so the kept characters stay in their order |
| `ExamSession.StripKeepsClean` | frontend/src/pages/ExamPage.jsx:86 | a timestamp without punctuation is unchanged, so stripping is idempotent |
| `ExamSession.SessionId` | frontend/src/pages/ExamPage.jsx:86-87 | the identifier is non-empty (truthy) and its length is 7 plus the three parts |
| `ExamSession.SessionIdParts` | frontend/src/pages/ExamPage.jsx:86-87 | the identifier parses back into `exam_`, the exam id, `_`, the user name, `_` and the stripped timestamp, and that last part has no punctuation |
| `ExamSession.SessionIdDeterminesTimestamp` | frontend/src/pages/ExamPage.jsx:86-87 | for a fixed exam and user, equal identifiers mean equal stripped timestamps |
| `ExamSession.SessionIdKeepsExamIdPunctuation` | frontend/src/pages/ExamPage.jsx:87 | the exam id is copied unstripped: position 5 + i is the exam id's character i |
| `ExamSession.AlertPayload` | frontend/src/pages/ExamPage.jsx:77-78 | a payload is built iff the user is present and the session id is truthy; it is then exactly `{source: web, student_id: username, session_id, alerts: [message]}` |
| `ExamSession.StartedSessionAlwaysBuildsPayload` | frontend/src/pages/ExamPage.jsx:77-87 | once the start has set the session id, every alert builds the payload carrying it |
| `ExamLive.ExamPage.constructor` | frontend/src/pages/ExamPage.jsx:16-24 | the page starts not started, with no session id, no listener and nothing sent |
| `ExamLive.ExamPage.HandleStartExam` | frontend/src/pages/ExamPage.jsx:84-90 | with a user and a truthy exam id it sets the session id to `SessionId(...)` and starts the exam; otherwise it changes nothing |
| `ExamLive.ExamPage.VisibilityEffect` | frontend/src/pages/ExamPage.jsx:60-73 | after the effect the listener is registered exactly when the exam has started |
| `ExamLive.ExamPage.VisibilityCleanup` | frontend/src/pages/ExamPage.jsx:70-72 | the cleanup leaves no listener, whether or not one was registered |
| `ExamLive.ExamPage.OnVisibilityChange` | frontend/src/pages/ExamPage.jsx:61-66 | a hidden document with the listener registered sends exactly one `WEB: Switched tabs` alert for the session; otherwise nothing is sent |
| `ExamLive.ExamPage.SendWebAlert` | frontend/src/pages/ExamPage.jsx:76-81 | the live helper appends the guarded payload and nothing else |
| `ExamLive.LiveVisibilityScenario` | frontend/src/pages/ExamPage.jsx:60-90 | before the start nothing is sent; after the start a hidden document sends one alert |
| `ExamMonitor.NineListeners` | frontend/src/pages/ExamPage.jsx:413-430 | the effect registers nine distinct listeners |
| `ExamMonitor.ListenerFor` | frontend/src/pages/ExamPage.jsx:413-430 | key, visibility and fullscreen events reach the key, visibility and fullscreen listeners and only those, whatever their fields; `beforeunload` reaches its own listener and nothing else does |
| `ExamMonitor.EveryListenerReceivesAnEvent` | frontend/src/pages/ExamPage.jsx:413-430 | each of the nine listeners is the one some event reaches, so the nine registrations listen for nine kinds of event |
| `ExamMonitor.LoweredShortcutLetter` | frontend/src/pages/ExamPage.jsx:378-381 | a character lowers to one of v, c, x, s, p iff it is that letter in either case |
| `ExamMonitor.ShortcutKeyCharacterization` | frontend/src/pages/ExamPage.jsx:378-381 | a key lower-cases into {v,c,x,s,p} iff it is one of those letters in either case |
| `ExamMonitor.KeyDownLabels` | frontend/src/pages/ExamPage.jsx:377-392 | `onKeyDown` reports at most one label; `F12` always reports `DEVTOOLS_OPEN_ATTEMPT`; without Ctrl or Cmd only `F12` reports anything |
| `ExamMonitor.KeyDownClassification` | frontend/src/pages/ExamPage.jsx:377-392 | Ctrl or Cmd with v/c/x/s/p gives `SHORTCUT_` plus the upper-case letter, `F12` gives `DEVTOOLS_OPEN_ATTEMPT`, and any other key gives nothing |
| `ExamMonitor.ViolationLabels` | frontend/src/pages/ExamPage.jsx:355-429 | a listener counts at most one violation, and counts none exactly for `beforeunload`, a visible document, entering fullscreen, or an unclassified key |
| `ExamMonitor.AlertLabels` | frontend/src/pages/ExamPage.jsx:355-429 | a listener reports at most one alert, and reports none exactly when it counts none and is not `beforeunload` |
| `ExamMonitor.PreventsDefault` | frontend/src/pages/ExamPage.jsx:356-388 | a listener suppresses the default action exactly for a violation other than a hidden document, a blur or leaving fullscreen: copy, cut, paste, the context menu and a classified key |
| `ExamMonitor.AtMostOneLabel` | frontend/src/pages/ExamPage.jsx:355-430 | each listener reports at most one label; all but `beforeunload` count what they report; `beforeunload` reports `PAGE_UNLOAD_ATTEMPT` uncounted |
| `ExamMonitor.Initial` | frontend/src/pages/ExamPage.jsx:273-286 | the monitor starts consistent, with nothing registered and the counter at 0 |
| `ExamMonitor.StartExam` | frontend/src/pages/ExamPage.jsx:455-462 | a refused start changes nothing; an allowed one sets the session id, starts the exam, and appends exactly the `Exam Started` request for the user and the new session, bypassing the throttle: the counter, `lastAlertTs`, the listeners and the user are unchanged |
| `ExamMonitor.Cleanup` | frontend/src/pages/ExamPage.jsx:442-452 | the cleanup removes the listeners, leaving none, and changes nothing else |
| `ExamMonitor.RunEffect` | frontend/src/pages/ExamPage.jsx:351-453 | after the effect all nine listeners are registered if the exam has started, and none otherwise; nothing else changes |
| `ExamMonitor.SendAlert` | frontend/src/pages/ExamPage.jsx:340-348 | the throttled send changes only the window, which stays or moves to now, and `sent`, which gains at most one request: the given message for the current user and session |
| `ExamMonitor.SendAlerts` | frontend/src/pages/ExamPage.jsx:340-348 | sending alerts only moves the window and appends at most one request per label; for one label it is the throttled send |
| `ExamMonitor.HandleEvent` | frontend/src/pages/ExamPage.jsx:355-430 | an event leaves the session and the listeners alone; it raises the counter by its counted labels iff its listener is registered, whatever the throttle does; a registered alerting event is the throttled send of its own label; any other event sends nothing and keeps the window |
| `ExamMonitor.Run` | frontend/src/pages/ExamPage.jsx:355-430 | a sequence of delivered events never changes the user or whether the exam has started |
| `ExamMonitor.ThrottleDropsIffInsideWindow` | frontend/src/pages/ExamPage.jsx:341-342 | an alert leaves the monitor unchanged iff it comes less than 1500 ms after `lastAlertTs` |
| `ExamMonitor.PassingAlertMovesWindow` | frontend/src/pages/ExamPage.jsx:341-346 | an alert outside the window sets `lastAlertTs` to now before the guard, so an alert then dropped for a missing session still moves the window |
| `ExamMonitor.WindowDropsNextAlert` | frontend/src/pages/ExamPage.jsx:341-343 | the window is global: after an alert passes, any alert with any label within 1500 ms is dropped |
| `ExamMonitor.AlertsAnIntervalApartBothPass` | frontend/src/pages/ExamPage.jsx:341-346 | two alerts at least 1500 ms apart, exactly 1500 included, both reach the server |
| `ExamMonitor.AlertingEventThrottled` | frontend/src/pages/ExamPage.jsx:340-429 | for an existing session, a registered alerting event outside the window sends its own label and moves the window to now; inside the window it sends nothing and keeps the window |
| `ExamMonitor.TwoEventsThrottled` | frontend/src/pages/ExamPage.jsx:340-429 | of two alerting events, the first outside the window, both are sent when 1500 ms or more apart and only the first otherwise |
| `ExamMonitor.RunKeepsConsistent` | frontend/src/pages/ExamPage.jsx:351-453 | events keep the invariant and change neither the listeners nor the session id |
| `ExamMonitor.CounterCountsViolations` | frontend/src/pages/ExamPage.jsx:355-429 | with the listeners registered, the counter rises by exactly the number of violating events, whatever their labels and the throttle |
| `ExamMonitor.CounterNeverDecreases` | frontend/src/pages/ExamPage.jsx:357-427 | the violation counter never decreases |
| `ExamMonitor.DisarmedMonitorIgnoresEvents` | frontend/src/pages/ExamPage.jsx:351-352 | without registered listeners, events change nothing: nothing is counted and nothing is sent |
| `ExamMonitor.RunSendsSessionAlerts` | frontend/src/pages/ExamPage.jsx:340-348 | events only append, at most one request each, and every request is a one-label alert for the current user and session |
| `ExamMonitor.ScenarioWithRunningClock` | frontend/src/pages/ExamPage.jsx:340-429 | copy at T, paste at T+500 ms and cut at T+2000 ms (T ≥ 1500) count 3 violations and send only the copy and the cut |
| `ExamMonitor.ScenarioWithClockAtZero` | frontend/src/pages/ExamPage.jsx:286-343 | with `lastAlertTs` starting at 0 and the clock at 0, the same events count 3 violations and send only the cut |
| `ExamMonitor.Monitor.constructor` | frontend/src/pages/ExamPage.jsx:273-286 | the monitor's fields start as `Initial(user)` |
| `ExamMonitor.Monitor.HandleStartExam` | frontend/src/pages/ExamPage.jsx:455-463 | the new state is `StartExam` of the old one, and the invariant holds |
| `ExamMonitor.Monitor.MonitorEffect` | frontend/src/pages/ExamPage.jsx:351-453 | the new state is `RunEffect` of the old one |
| `ExamMonitor.Monitor.Unmount` | frontend/src/pages/ExamPage.jsx:442-452 | the new state is `Cleanup` of the old one: no listener is left, and a second call changes nothing |
| `ExamMonitor.Monitor.Dispatch` | frontend/src/pages/ExamPage.jsx:355-430 | the new state is `HandleEvent` of the old one; the default action is suppressed iff the registered listener is copy/cut/paste/contextmenu or a classified key; `beforeunload` returns the leave-confirmation message |
| `ExamMonitor.Monitor.OnKeyDown` | frontend/src/pages/ExamPage.jsx:377-392 | the key listener's two branches give the new state `HandleEvent` of the old one, and `preventDefault` is called iff a label is reported |
| `ExamMonitor.Monitor.SendWebAlert` | frontend/src/pages/ExamPage.jsx:340-348 | the new state is `SendAlert` of the old one |
| `Theme.GetItem` | frontend/src/components/Theme_provider.jsx:15 | `getItem` gives a value iff the key is stored, and then the stored value |
| `Theme.InitialTheme` | frontend/src/components/Theme_provider.jsx:12-19 | the initial theme is the default or a non-empty stored value, read only with a window and without a throw; a non-empty stored value is always used then |
| `Theme.ResolvedClass` | frontend/src/components/Theme_provider.jsx:27-34 | outside `system` mode the class is the theme itself; in `system` mode it is `dark` iff the OS prefers dark and `light` otherwise |
| `Theme.ApplyTheme` | frontend/src/components/Theme_provider.jsx:22-37 | the effect never leaves both `light` and `dark`; `add` throws iff the resolved class is not a valid token; otherwise the resolved class, any theme string included, is present afterwards; `light` (or `dark`) survives exactly when the effect added it, so for any other theme neither remains |
| `Theme.SchemeChange` | frontend/src/components/Theme_provider.jsx:43-48 | outside `system` mode the classes stay; in `system` mode `dark` is present iff the OS prefers dark and `light` iff not; every other class is kept as it was |
| `Theme.ApplyKnownTheme` | frontend/src/components/Theme_provider.jsx:24-36 | for light, dark or system exactly one of `light`/`dark` remains: the theme itself, or `dark` iff the OS prefers dark |
| `Theme.ApplyLeavesOtherClasses` | frontend/src/components/Theme_provider.jsx:25-33 | every class other than `light`, `dark` and the added token is present after the effect iff it was before |
| `Theme.ApplyIdempotent` | frontend/src/components/Theme_provider.jsx:25-33 | running the effect twice gives the same classes and outcome as running it once |
| `Theme.SchemeChangeOnlyInSystemMode` | frontend/src/components/Theme_provider.jsx:43-48 | outside `system` mode the OS handler leaves the classes untouched; in `system` mode it leaves what the effect would for the new preference |
| `Theme.StoredThemeRoundTrip` | frontend/src/components/Theme_provider.jsx:12-19 | after storing v under the key, a provider on that key starts with v, or with the default when v is empty |
| `Theme.DefaultsFollowTheOs` | frontend/src/components/Theme_provider.jsx:9-36 | with the default key and theme and nothing stored, the provider starts in `system` mode and its effect leaves `dark` iff the OS prefers dark |
| `Theme.LocalStorage.SetItem` | frontend/src/components/Theme_provider.jsx:59 | the value is stored under the key and the other keys are kept |
| `Theme.DocumentElement.Remove` | frontend/src/components/Theme_provider.jsx:25 | the given classes are removed and the others kept |
| `Theme.DocumentElement.Add` | frontend/src/components/Theme_provider.jsx:30-32 | `add` throws iff the token is invalid, and otherwise adds it to the classes |
| `Theme.ThemeProvider.constructor` | frontend/src/components/Theme_provider.jsx:11-19 | the initial theme is the default without a window or when reading throws, and otherwise the stored value unless it is missing or empty |
| `Theme.ThemeProvider.ApplyEffect` | frontend/src/components/Theme_provider.jsx:22-37 | with a window, the root's classes become `ApplyTheme` of the old classes; without one they are untouched |
| `Theme.ThemeProvider.OnColorSchemeChange` | frontend/src/components/Theme_provider.jsx:40-49 | the root's classes become `SchemeChange` of the old classes |
| `Theme.ThemeProvider.SetTheme` | frontend/src/components/Theme_provider.jsx:58-61 | the value is stored under the storage key unless the write fails; the state becomes the value either way |
| `Theme.ReloadAfterSetTheme` | frontend/src/components/Theme_provider.jsx:12-61 | after `setTheme(v)`, a provider reloaded on the same storage starts with v, or with the default for an empty v |
| `Toggle.Effective` | frontend/src/components/ModeToggle.jsx:10-12 | the effective theme is the theme unless it is `system`; then it is `dark` iff the root has class `dark`, and `light` otherwise |
| `Toggle.IconFor` | frontend/src/components/ModeToggle.jsx:38 | the moon shows iff the effective theme is `dark` |
| `Toggle.EffectiveMatchesAppliedClass` | frontend/src/components/ModeToggle.jsx:10-12 | at any render after the provider's effect, the effective theme is the class the effect resolved |
| `Toggle.MoonIffDarkMode` | frontend/src/components/ModeToggle.jsx:38 | at any render after the provider's effect, the moon shows iff the theme is dark, or is system with a dark OS preference |
| `Toggle.IconLagsAfterSwitchToSystem` | frontend/src/components/ModeToggle.jsx:10-38 | the render after switching from dark to `system` with a light OS shows the moon, while the effect that follows leaves `light` and not `dark` on the root |
| `Toggle.NextOpen` | frontend/src/components/ModeToggle.jsx:15-33 | the button flips `open`; the menu is open after any other input only if it was open before; choosing an item always closes it |
| `Toggle.ToggleTwiceRestores` | frontend/src/components/ModeToggle.jsx:33 | two clicks on the button restore `open` |
| `Toggle.OnlyToggleOpens` | frontend/src/components/ModeToggle.jsx:14-33 | only the button opens a closed menu |
| `Toggle.ClosingInputs` | frontend/src/components/ModeToggle.jsx:15-18 | Escape and an outside click close the menu; another key or an inside click leave it unchanged |
| `Toggle.ModeToggle.constructor` | frontend/src/components/ModeToggle.jsx:7 | the menu starts closed |
| `Toggle.ModeToggle.ButtonIcon` | frontend/src/components/ModeToggle.jsx:10-38 | the button shows the moon iff the effective theme is `dark`, with no class read when there is no window |
| `Toggle.ModeToggle.ClickToggle` | frontend/src/components/ModeToggle.jsx:33 | the button flips `open` |
| `Toggle.ModeToggle.OnDocumentClick` | frontend/src/components/ModeToggle.jsx:15-17 | an outside click closes the menu; an inside click leaves it |
| `Toggle.ModeToggle.OnKeyDown` | frontend/src/components/ModeToggle.jsx:18 | Escape closes the menu; other keys leave it |
| `Toggle.ModeToggle.HandleSelect` | frontend/src/components/ModeToggle.jsx:27 | choosing an item sets the provider's theme (storing it unless the write fails) and closes the menu |

## Left out

- HTTP: fetching exam details and questions, posting `log_data` and submitting the exam are network calls to an unseen backend. A post is modelled only as appending its body to the ghost list `sent`. Its success or failure, which only reaches `console.error`, is not modelled.
- The loading and error flags, and the question and answer state of the disabled variant, are driven by network results and React scheduling. Submitting (with its `Exam Finished` post) is left out with them.
- Reading the user record from local storage, the login redirect, `navigate`, `alert` and `console` are browser and routing plumbing. The user record is a constructor parameter. `user` and `userRef` are set together and are one field here.
- `addEventListener`/`removeEventListener` are modelled as a set of registered listener names. React's effect scheduling is modelled as explicit calls: the effect runs after a change of `examStarted`, preceded by the previous run's cleanup.
- `tryFullscreen` is never called and only wraps a browser API.
- The clock (`Date.now()`, `toISOString()`) and `matchMedia` are parameters, not modelled clocks or media queries.
- JSX markup, including the download link and run-command strings, is rendering only.
- The order of a `DOMTokenList` is not modelled: the root's class list is a set.
- `ModeToggle`'s `ref.current` is assumed attached whenever its document listeners are registered, since the effect that registers them runs after mount.
- The registration and removal of the OS `change` listener and of the menu's document listeners are not modelled. The handlers are called directly.
- JsStrings.ToLower: `toLowerCase` maps only ASCII letters here. No other character lower-cases to one of v, c, x, s, p, so the shortcut classification is unaffected.
- JsStrings.ToUpper: `toUpperCase` maps only ASCII letters here, so the length is kept, whereas JavaScript can lengthen a string (`ß` becomes `SS`). It is applied only to one of v, c, x, s, p, where the two agree.
- A thrown `classList.add` in the layout effect is reported as `threw`. What React then does with the error is not modelled.
