/** The violation monitor of the exam page as it stands in the commented-out
    (disabled) variant of frontend/src/pages/ExamPage.jsx, lines 263-612.
    Once the exam has started, nine browser listeners turn raw events into
    violation labels, every counted violation bumps `violations`, and every
    label goes through a `sendWebAlert` that keeps one global 1500 ms window
    in `lastAlertTsRef`. The pure functions below are the specification of
    the class `Monitor` at the end of the module, which performs the same
    steps on its fields. */
module ExamMonitor {
  import opened JsStrings
  import opened ExamSession

  /** Minimum distance, in milliseconds, between two alerts that pass. */
  const ThrottleMs := 1500
  /** The string `onBeforeUnload` returns to ask the user to confirm leaving. */
  const LeaveMessage := "Leaving will submit/terminate the exam."
  /** The alert `handleStartExam` posts directly, outside the throttle. */
  const ExamStartedMessage := "Exam Started"

  /** A browser event, with the fields the handlers look at. */
  datatype Event =
    | Copy
    | Cut
    | Paste
    | ContextMenu
    | KeyDown(key: string, ctrlKey: bool, metaKey: bool)
    | VisibilityChange(hidden: bool)
    | Blur
    | BeforeUnload
    | FullscreenChange(hasFullscreenElement: bool)

  /** The nine listeners the monitoring effect registers. */
  datatype Listener =
    | CopyListener
    | CutListener
    | PasteListener
    | ContextMenuListener
    | KeyDownListener
    | VisibilityListener
    | BlurListener
    | BeforeUnloadListener
    | FullscreenListener

  const AllListeners: set<Listener> := {
    CopyListener, CutListener, PasteListener, ContextMenuListener, KeyDownListener,
    VisibilityListener, BlurListener, BeforeUnloadListener, FullscreenListener
  }

  /** The effect registers nine distinct listeners. */
  lemma NineListeners()
    ensures |AllListeners| == 9
  {
    var s := {CopyListener, CutListener, PasteListener, ContextMenuListener};
    assert |s| == 4;
    var t := s + {KeyDownListener, VisibilityListener};
    assert |t| == 6;
    assert AllListeners == t + {BlurListener, BeforeUnloadListener, FullscreenListener};
  }

  /** The listener that receives an event: the events carrying a key, a
      visibility state or a fullscreen state go to their own listeners, as
      does `beforeunload`, whatever their fields. */
  function ListenerFor(e: Event): (l: Listener)
    ensures l == KeyDownListener <==> e.KeyDown?
    ensures l == VisibilityListener <==> e.VisibilityChange?
    ensures l == FullscreenListener <==> e.FullscreenChange?
    ensures l == BeforeUnloadListener <==> e == BeforeUnload
  {
    match e
    case Copy => CopyListener
    case Cut => CutListener
    case Paste => PasteListener
    case ContextMenu => ContextMenuListener
    case KeyDown(_, _, _) => KeyDownListener
    case VisibilityChange(_) => VisibilityListener
    case Blur => BlurListener
    case BeforeUnload => BeforeUnloadListener
    case FullscreenChange(_) => FullscreenListener
  }

  /** Every registered listener is the one some event reaches, so the nine
      registrations listen for nine different kinds of event. */
  lemma EveryListenerReceivesAnEvent(l: Listener)
    ensures exists e :: ListenerFor(e) == l
  {
    match l
    case CopyListener => assert ListenerFor(Copy) == l;
    case CutListener => assert ListenerFor(Cut) == l;
    case PasteListener => assert ListenerFor(Paste) == l;
    case ContextMenuListener => assert ListenerFor(ContextMenu) == l;
    case KeyDownListener => assert ListenerFor(KeyDown("", false, false)) == l;
    case VisibilityListener => assert ListenerFor(VisibilityChange(false)) == l;
    case BlurListener => assert ListenerFor(Blur) == l;
    case BeforeUnloadListener => assert ListenerFor(BeforeUnload) == l;
    case FullscreenListener => assert ListenerFor(FullscreenChange(false)) == l;
  }

  /** The lower-cased keys that the Ctrl/Cmd shortcut check blocks. */
  predicate IsShortcutKey(k: string) {
    k == "v" || k == "c" || k == "x" || k == "s" || k == "p"
  }

  /** The labels `onKeyDown` reports, in order: its Ctrl/Cmd shortcut branch,
      then its independent F12 branch. */
  function KeyDownLabels(key: string, ctrlKey: bool, metaKey: bool): (r: seq<string>)
    ensures |r| <= 1
    ensures key == "F12" ==> r == ["DEVTOOLS_OPEN_ATTEMPT"]
    ensures !ctrlKey && !metaKey ==> (r != [] <==> key == "F12")
  {
    var k := ToLower(key);
    (if (ctrlKey || metaKey) && IsShortcutKey(k) then ["SHORTCUT_" + ToUpper(k)] else [])
    + (if key == "F12" then ["DEVTOOLS_OPEN_ATTEMPT"] else [])
  }

  /** The letters, in either case, whose Ctrl/Cmd shortcut is blocked. */
  predicate IsShortcutLetter(c: char) {
    || c == 'v' || c == 'c' || c == 'x' || c == 's' || c == 'p'
    || c == 'V' || c == 'C' || c == 'X' || c == 'S' || c == 'P'
  }

  /** A lowered character is one of v, c, x, s, p exactly when the character
      is that letter in either case. */
  lemma LoweredShortcutLetter(c: char)
    ensures var l := LowerChar(c);
      (l == 'v' || l == 'c' || l == 'x' || l == 's' || l == 'p') <==> IsShortcutLetter(c)
  {
    if IsAsciiUpper(c) {
      assert LowerChar(c) as int == c as int + 32;
    }
  }

  /** A key lower-cases to one of v, c, x, s, p exactly when it is that single
      letter in either case. */
  lemma ShortcutKeyCharacterization(key: string)
    ensures IsShortcutKey(ToLower(key)) <==> |key| == 1 && IsShortcutLetter(key[0])
  {
    var k := ToLower(key);
    if |key| == 1 {
      var l := LowerChar(key[0]);
      assert k == [l];
      assert IsShortcutKey(k) <==> (l == 'v' || l == 'c' || l == 'x' || l == 's' || l == 'p');
      LoweredShortcutLetter(key[0]);
    } else {
      assert |k| != 1;
    }
  }

  /** `onKeyDown` classified against an independent description: a modified
      v/c/x/s/p in either case gives `SHORTCUT_` and the upper-case letter,
      `F12` gives `DEVTOOLS_OPEN_ATTEMPT`, any other key gives nothing. */
  lemma KeyDownClassification(key: string, ctrlKey: bool, metaKey: bool)
    ensures KeyDownLabels(key, ctrlKey, metaKey) ==
      if (ctrlKey || metaKey) && |key| == 1 && IsShortcutLetter(key[0]) then ["SHORTCUT_" + [UpperChar(key[0])]]
      else if key == "F12" then ["DEVTOOLS_OPEN_ATTEMPT"]
      else []
  {
    ShortcutKeyCharacterization(key);
    var k := ToLower(key);
    if |key| == 1 && IsShortcutLetter(key[0]) {
      assert ToUpper(k) == [UpperChar(LowerChar(key[0]))];
      assert key != "F12";
    }
  }

  /** The labels of the violations the listener for `e` counts, each one with
      its own `setViolations(v => v + 1)`. */
  function ViolationLabels(e: Event): (r: seq<string>)
    ensures |r| <= 1
    ensures r == [] <==>
      || e.BeforeUnload? || e == VisibilityChange(false) || e == FullscreenChange(true)
      || (e.KeyDown? && KeyDownLabels(e.key, e.ctrlKey, e.metaKey) == [])
  {
    match e
    case Copy => ["COPY_ATTEMPT"]
    case Cut => ["CUT_ATTEMPT"]
    case Paste => ["PASTE_ATTEMPT"]
    case ContextMenu => ["CONTEXT_MENU"]
    case KeyDown(key, ctrlKey, metaKey) => KeyDownLabels(key, ctrlKey, metaKey)
    case VisibilityChange(hidden) => if hidden then ["TAB_SWITCH_OR_MINIMIZE"] else []
    case Blur => ["WINDOW_BLUR"]
    case BeforeUnload => []
    case FullscreenChange(hasFullscreenElement) => if hasFullscreenElement then [] else ["EXIT_FULLSCREEN"]
  }

  /** The labels the listener for `e` passes to `sendWebAlert`: the counted
      ones, and for `beforeunload` the uncounted `PAGE_UNLOAD_ATTEMPT`. */
  function AlertLabels(e: Event): (r: seq<string>)
    ensures |r| <= 1
    ensures r == [] <==> ViolationLabels(e) == [] && !e.BeforeUnload?
  {
    if e.BeforeUnload? then ["PAGE_UNLOAD_ATTEMPT"] else ViolationLabels(e)
  }

  /** Whether the listener calls `preventDefault()`. */
  predicate PreventsDefault(e: Event): (b: bool)
    ensures b <==> IsViolation(e) && !e.VisibilityChange? && !e.Blur? && !e.FullscreenChange?
    ensures e.KeyDown? ==> (b <==> IsViolation(e))
  {
    || e.Copy? || e.Cut? || e.Paste? || e.ContextMenu?
    || (e.KeyDown? && KeyDownLabels(e.key, e.ctrlKey, e.metaKey) != [])
  }

  /** The events that count as a violation. */
  predicate IsViolation(e: Event) {
    ViolationLabels(e) != []
  }

  /** Every listener reports at most one label, and the counted labels are
      exactly the reported ones except for `beforeunload`. */
  lemma AtMostOneLabel(e: Event)
    ensures |ViolationLabels(e)| <= 1 && |AlertLabels(e)| <= 1
    ensures !e.BeforeUnload? ==> AlertLabels(e) == ViolationLabels(e)
    ensures e.BeforeUnload? ==> ViolationLabels(e) == [] && AlertLabels(e) == ["PAGE_UNLOAD_ATTEMPT"]
  {
    if e.KeyDown? {
      KeyDownClassification(e.key, e.ctrlKey, e.metaKey);
    }
  }

  // ---------------------------------------------------------------------
  // The monitor's state and its transitions, as values.

  datatype MonitorState = MonitorState(
    user: Option<User>,
    examStarted: bool,
    sessionId: Option<string>,
    violations: nat,
    lastAlertTs: int,
    listeners: set<Listener>,
    sent: seq<Payload>)

  /** A started exam has a user and a session id; the listeners are either all
      registered or none, and only for a started exam. */
  predicate Consistent(s: MonitorState) {
    && (s.examStarted ==> s.user.Some? && Truthy(s.sessionId))
    && (s.listeners == {} || s.listeners == AllListeners)
    && (s.listeners != {} ==> s.examStarted)
  }

  /** The page once the user record has been read: not started, no session,
      no violation, `lastAlertTsRef` at 0, nothing registered or sent. */
  function Initial(user: Option<User>): (s: MonitorState)
    ensures Consistent(s) && s.listeners == {} && s.violations == 0
  {
    MonitorState(user, false, None, 0, 0, {}, [])
  }

  /** `handleStartExam`: behind the start guard, sets the session id, starts
      the exam and posts `Exam Started` without going through the throttle. */
  function StartExam(s: MonitorState, examId: Option<string>, isoTimestamp: string): (r: MonitorState)
    requires Consistent(s)
    ensures Consistent(r)
    ensures !StartAllowed(s.user, examId) ==> r == s
    ensures StartAllowed(s.user, examId) ==>
      && r.examStarted && r.violations == s.violations
      && r.sessionId == Some(SessionId(examId.value, s.user.value.username, isoTimestamp))
      && r.sent == s.sent + [Payload("web", s.user.value.username, r.sessionId.value, [ExamStartedMessage])]
      && r.lastAlertTs == s.lastAlertTs && r.listeners == s.listeners && r.user == s.user
  {
    if !StartAllowed(s.user, examId) then s
    else
      var id := SessionId(examId.value, s.user.value.username, isoTimestamp);
      s.(sessionId := Some(id), examStarted := true,
         sent := s.sent + [Payload("web", s.user.value.username, id, [ExamStartedMessage])])
  }

  /** The effect's cleanup: removes the nine listeners. */
  function Cleanup(s: MonitorState): (r: MonitorState)
    requires Consistent(s)
    ensures Consistent(r) && r.listeners == {}
    ensures r == s.(listeners := {})
  {
    s.(listeners := s.listeners - AllListeners)
  }

  /** The `[examStarted]` effect as React runs it: the previous run's cleanup,
      then the body, which registers the nine listeners only for a started exam. */
  function RunEffect(s: MonitorState): (r: MonitorState)
    requires Consistent(s)
    ensures Consistent(r)
    ensures r.listeners == if s.examStarted then AllListeners else {}
    ensures r.(listeners := s.listeners) == s
  {
    var c := Cleanup(s);
    if !c.examStarted then c else c.(listeners := c.listeners + AllListeners)
  }

  /** The throttled `sendWebAlert`: inside the window nothing happens;
      otherwise the window moves to `now` before the user/session guard runs. */
  function SendAlert(s: MonitorState, message: string, now: int): (r: MonitorState)
    ensures r.(sent := s.sent, lastAlertTs := s.lastAlertTs) == s
    ensures r.lastAlertTs == s.lastAlertTs || r.lastAlertTs == now
    ensures |s.sent| <= |r.sent| <= |s.sent| + 1 && r.sent[..|s.sent|] == s.sent
    ensures |r.sent| > |s.sent| ==> IsSessionAlert(s, r.sent[|s.sent|]) && r.sent[|s.sent|].alerts == [message]
  {
    if now - s.lastAlertTs < ThrottleMs then s
    else
      var moved := s.(lastAlertTs := now);
      moved.(sent := moved.sent + Sent(AlertPayload(s.user, s.sessionId, message)))
  }

  /** `sendWebAlert` called once per label, in order. */
  function SendAlerts(s: MonitorState, labels: seq<string>, now: int): (r: MonitorState)
    ensures r.(sent := s.sent, lastAlertTs := s.lastAlertTs) == s
    ensures |s.sent| <= |r.sent| <= |s.sent| + |labels| && r.sent[..|s.sent|] == s.sent
    ensures |labels| == 1 ==> r == SendAlert(s, labels[0], now)
    decreases |labels|
  {
    if labels == [] then s else SendAlerts(SendAlert(s, labels[0], now), labels[1..], now)
  }

  /** The browser delivers `e` at time `now`: nothing happens unless its
      listener is registered; otherwise the counted labels raise `violations`
      whatever the throttle decides, and every label is offered to it. */
  function HandleEvent(s: MonitorState, e: Event, now: int): (r: MonitorState)
    ensures r.user == s.user && r.examStarted == s.examStarted && r.sessionId == s.sessionId
    ensures r.listeners == s.listeners
    ensures r.violations == s.violations + if ListenerFor(e) in s.listeners then |ViolationLabels(e)| else 0
    ensures |s.sent| <= |r.sent| <= |s.sent| + 1 && r.sent[..|s.sent|] == s.sent
    ensures ListenerFor(e) in s.listeners && AlertLabels(e) != [] ==>
      r == SendAlert(s.(violations := s.violations + |ViolationLabels(e)|), AlertLabels(e)[0], now)
    ensures ListenerFor(e) !in s.listeners || AlertLabels(e) == [] ==>
      r.sent == s.sent && r.lastAlertTs == s.lastAlertTs
  {
    AtMostOneLabel(e);
    if ListenerFor(e) !in s.listeners then s
    else SendAlerts(s.(violations := s.violations + |ViolationLabels(e)|), AlertLabels(e), now)
  }

  /** An event with the time the browser delivered it. */
  datatype Timed = Timed(event: Event, now: int)

  /** The monitor after a sequence of delivered events. */
  function Run(s: MonitorState, trace: seq<Timed>): (r: MonitorState)
    ensures r.user == s.user && r.examStarted == s.examStarted
    decreases |trace|
  {
    if trace == [] then s else Run(HandleEvent(s, trace[0].event, trace[0].now), trace[1..])
  }

  /** How many events of a trace count as violations. */
  function ViolationCount(trace: seq<Timed>): (n: nat)
    ensures n <= |trace|
  {
    if trace == [] then 0
    else (if IsViolation(trace[0].event) then 1 else 0) + ViolationCount(trace[1..])
  }

  // ---------------------------------------------------------------------
  // Properties of the monitor.

  /** An alert is dropped, leaving everything as it was, exactly when it comes
      less than 1500 ms after the last one that passed. */
  lemma ThrottleDropsIffInsideWindow(s: MonitorState, message: string, now: int)
    ensures SendAlert(s, message, now) == s <==> now - s.lastAlertTs < ThrottleMs
  {
    if now - s.lastAlertTs >= ThrottleMs {
      assert SendAlert(s, message, now).lastAlertTs != s.lastAlertTs;
    }
  }

  /** An alert outside the window moves the window to `now` even when it is
      then dropped for a missing user or session id. */
  lemma PassingAlertMovesWindow(s: MonitorState, message: string, now: int)
    requires now - s.lastAlertTs >= ThrottleMs
    ensures SendAlert(s, message, now).lastAlertTs == now
    ensures SendAlert(s, message, now).sent == s.sent + Sent(AlertPayload(s.user, s.sessionId, message))
    ensures !Truthy(s.sessionId) ==> SendAlert(s, message, now).sent == s.sent
  {
  }

  /** The window is global: after an alert passes, any alert, whatever its
      label, within the next 1500 ms is dropped. */
  lemma WindowDropsNextAlert(s: MonitorState, m1: string, t1: int, m2: string, t2: int)
    requires t1 - s.lastAlertTs >= ThrottleMs && t2 - t1 < ThrottleMs
    ensures SendAlert(SendAlert(s, m1, t1), m2, t2) == SendAlert(s, m1, t1)
  {
    PassingAlertMovesWindow(s, m1, t1);
    ThrottleDropsIffInsideWindow(SendAlert(s, m1, t1), m2, t2);
  }

  /** Two alerts at least 1500 ms apart (exactly 1500 included) both reach the
      server once the session exists. */
  lemma AlertsAnIntervalApartBothPass(s: MonitorState, m1: string, t1: int, m2: string, t2: int)
    requires s.user.Some? && Truthy(s.sessionId)
    requires t1 - s.lastAlertTs >= ThrottleMs && t2 - t1 >= ThrottleMs
    ensures SendAlert(SendAlert(s, m1, t1), m2, t2).sent ==
      s.sent + [Payload("web", s.user.value.username, s.sessionId.value, [m1]),
                Payload("web", s.user.value.username, s.sessionId.value, [m2])]
  {
    PassingAlertMovesWindow(s, m1, t1);
    PassingAlertMovesWindow(SendAlert(s, m1, t1), m2, t2);
  }

  /** The monitor's invariant holds after every event. */
  lemma {:induction false} RunKeepsConsistent(s: MonitorState, trace: seq<Timed>)
    requires Consistent(s)
    ensures Consistent(Run(s, trace))
    ensures Run(s, trace).listeners == s.listeners && Run(s, trace).sessionId == s.sessionId
    decreases |trace|
  {
    if trace != [] {
      RunKeepsConsistent(HandleEvent(s, trace[0].event, trace[0].now), trace[1..]);
    }
  }

  /** With the listeners registered, the counter rises by exactly the number
      of violating events, whatever their labels and the throttle. */
  lemma {:induction false} CounterCountsViolations(s: MonitorState, trace: seq<Timed>)
    requires s.listeners == AllListeners
    ensures Run(s, trace).violations == s.violations + ViolationCount(trace)
    decreases |trace|
  {
    if trace != [] {
      var e := trace[0].event;
      AtMostOneLabel(e);
      CounterCountsViolations(HandleEvent(s, e, trace[0].now), trace[1..]);
    }
  }

  /** The counter never goes down. */
  lemma {:induction false} CounterNeverDecreases(s: MonitorState, trace: seq<Timed>)
    ensures Run(s, trace).violations >= s.violations
    decreases |trace|
  {
    if trace != [] {
      CounterNeverDecreases(HandleEvent(s, trace[0].event, trace[0].now), trace[1..]);
    }
  }

  /** Without registered listeners nothing is counted or sent: before the
      exam starts and after cleanup, events leave the monitor as it was. */
  lemma {:induction false} DisarmedMonitorIgnoresEvents(s: MonitorState, trace: seq<Timed>)
    requires s.listeners == {}
    ensures Run(s, trace) == s
    decreases |trace|
  {
    if trace != [] {
      DisarmedMonitorIgnoresEvents(HandleEvent(s, trace[0].event, trace[0].now), trace[1..]);
    }
  }

  /** An alerting event reaching its registered listener, for an existing
      session: outside the window it sends its own label and moves the
      window to `now`; inside the window it sends nothing and keeps it. */
  lemma AlertingEventThrottled(s: MonitorState, e: Event, now: int)
    requires ListenerFor(e) in s.listeners && s.user.Some? && Truthy(s.sessionId)
    requires AlertLabels(e) != []
    ensures var r := HandleEvent(s, e, now);
      var p := Payload("web", s.user.value.username, s.sessionId.value, AlertLabels(e));
      && r.sent == (if now - s.lastAlertTs >= ThrottleMs then s.sent + [p] else s.sent)
      && r.lastAlertTs == (if now - s.lastAlertTs >= ThrottleMs then now else s.lastAlertTs)
  {
    AtMostOneLabel(e);
    var l := AlertLabels(e)[0];
    assert AlertLabels(e) == [l];
    var m := s.(violations := s.violations + |ViolationLabels(e)|);
    if now - s.lastAlertTs >= ThrottleMs {
      PassingAlertMovesWindow(m, l, now);
    } else {
      ThrottleDropsIffInsideWindow(m, l, now);
    }
  }

  /** Two alerting events delivered to the armed monitor, the first outside
      the window: each sends its own label, and the second is sent only when
      it comes 1500 ms or more after the first, which then holds the window. */
  lemma TwoEventsThrottled(s: MonitorState, e1: Event, t1: int, e2: Event, t2: int)
    requires s.listeners == AllListeners && s.user.Some? && Truthy(s.sessionId)
    requires AlertLabels(e1) != [] && AlertLabels(e2) != []
    requires t1 - s.lastAlertTs >= ThrottleMs
    ensures var r := Run(s, [Timed(e1, t1), Timed(e2, t2)]);
      var p1 := Payload("web", s.user.value.username, s.sessionId.value, AlertLabels(e1));
      var p2 := Payload("web", s.user.value.username, s.sessionId.value, AlertLabels(e2));
      && r.sent == s.sent + [p1] + (if t2 - t1 >= ThrottleMs then [p2] else [])
      && r.lastAlertTs == (if t2 - t1 >= ThrottleMs then t2 else t1)
  {
    var trace := [Timed(e1, t1), Timed(e2, t2)];
    var s1 := HandleEvent(s, e1, t1);
    AlertingEventThrottled(s, e1, t1);
    var s2 := HandleEvent(s1, e2, t2);
    AlertingEventThrottled(s1, e2, t2);
    assert Run(s1, trace[1..]) == s2 by {
      assert trace[1..][1..] == [];
    }
  }

  /** A request the monitor sends for this session. */
  predicate IsSessionAlert(s: MonitorState, p: Payload) {
    && s.user.Some? && Truthy(s.sessionId)
    && p.source == "web" && p.studentId == s.user.value.username
    && p.sessionId == s.sessionId.value && |p.alerts| == 1
  }

  /** Events only ever append, at most one request per event, and each one
      is a single-label alert of the current user and session. */
  lemma {:induction false} RunSendsSessionAlerts(s: MonitorState, trace: seq<Timed>)
    ensures var r := Run(s, trace);
      && |s.sent| <= |r.sent| <= |s.sent| + |trace| && r.sent[..|s.sent|] == s.sent
      && forall i :: |s.sent| <= i < |r.sent| ==> IsSessionAlert(s, r.sent[i])
    decreases |trace|
  {
    if trace != [] {
      var e, now := trace[0].event, trace[0].now;
      var h := HandleEvent(s, e, now);
      AtMostOneLabel(e);
      if ListenerFor(e) in s.listeners && AlertLabels(e) != [] {
        var m := s.(violations := s.violations + |ViolationLabels(e)|);
        assert AlertLabels(e)[1..] == [];
        assert h == SendAlert(m, AlertLabels(e)[0], now);
      }
      assert forall i :: |s.sent| <= i < |h.sent| ==> IsSessionAlert(s, h.sent[i]);
      RunSendsSessionAlerts(h, trace[1..]);
      var r := Run(s, trace);
      assert r == Run(h, trace[1..]);
      forall i | |s.sent| <= i < |r.sent|
        ensures IsSessionAlert(s, r.sent[i])
      {
        if i < |h.sent| {
          assert r.sent[i] == r.sent[..|h.sent|][i];
        }
      }
    }
  }

  /** Three events with the clock past 1500 ms at the first one: copy at T, paste at T + 500 and cut at
      T + 2000 count three violations, and only copy and cut reach the server. */
  lemma ScenarioWithRunningClock(user: User, examId: string, isoTimestamp: string, t: int)
    requires Truthy(Some(examId)) && t >= ThrottleMs
    ensures var started := StartExam(Initial(Some(user)), Some(examId), isoTimestamp);
      var r := Run(RunEffect(started), [Timed(Copy, t), Timed(Paste, t + 500), Timed(Cut, t + 2000)]);
      var id := SessionId(examId, user.username, isoTimestamp);
      && r.violations == 3
      && r.sent == started.sent + [Payload("web", user.username, id, ["COPY_ATTEMPT"]),
                                   Payload("web", user.username, id, ["CUT_ATTEMPT"])]
  {
    var started := StartExam(Initial(Some(user)), Some(examId), isoTimestamp);
    var s0 := RunEffect(started);
    var trace := [Timed(Copy, t), Timed(Paste, t + 500), Timed(Cut, t + 2000)];
    var s1 := HandleEvent(s0, Copy, t);
    var s2 := HandleEvent(s1, Paste, t + 500);
    var s3 := HandleEvent(s2, Cut, t + 2000);
    assert Run(s2, trace[2..]) == s3 by {
      assert trace[2..][1..] == [];
    }
    assert trace[1..][1..] == trace[2..];
    assert Run(s0, trace) == s3;
  }

  /** The same events with the clock itself at 0: `lastAlertTsRef` also starts at 0, so the copy at 0 and the paste at
      500 fall inside the first window and only the cut reaches the server. */
  lemma ScenarioWithClockAtZero(user: User, examId: string, isoTimestamp: string)
    requires Truthy(Some(examId))
    ensures var started := StartExam(Initial(Some(user)), Some(examId), isoTimestamp);
      var r := Run(RunEffect(started), [Timed(Copy, 0), Timed(Paste, 500), Timed(Cut, 2000)]);
      && r.violations == 3
      && r.sent == started.sent + [Payload("web", user.username, SessionId(examId, user.username, isoTimestamp), ["CUT_ATTEMPT"])]
  {
    var started := StartExam(Initial(Some(user)), Some(examId), isoTimestamp);
    var s0 := RunEffect(started);
    var trace := [Timed(Copy, 0), Timed(Paste, 500), Timed(Cut, 2000)];
    var s1 := HandleEvent(s0, Copy, 0);
    var s2 := HandleEvent(s1, Paste, 500);
    var s3 := HandleEvent(s2, Cut, 2000);
    assert Run(s2, trace[2..]) == s3 by {
      assert trace[2..][1..] == [];
    }
    assert trace[1..][1..] == trace[2..];
    assert Run(s0, trace) == s3;
  }

  // ---------------------------------------------------------------------
  // The monitor as the page holds it: React state and refs updated in place.

  class Monitor {
    var user: Option<User>
    const examId: Option<string>
    var examStarted: bool
    /** `sessionIdRef.current` */
    var sessionId: Option<string>
    var violations: nat
    /** `lastAlertTsRef.current` */
    var lastAlertTs: int
    /** The listeners currently registered on the document and the window. */
    var listeners: set<Listener>
    /** Every `POST /log_data` body issued, in order. */
    ghost var sent: seq<Payload>

    ghost function State(): MonitorState
      reads this
    {
      MonitorState(user, examStarted, sessionId, violations, lastAlertTs, listeners, sent)
    }

    ghost predicate Valid()
      reads this
    {
      Consistent(State())
    }

    constructor (user: Option<User>, examId: Option<string>)
      ensures Valid() && State() == Initial(user) && this.examId == examId
    {
      this.user := user;
      this.examId := examId;
      examStarted := false;
      sessionId := None;
      violations := 0;
      lastAlertTs := 0;
      listeners := {};
      sent := [];
    }

    /** `handleStartExam`, with the clock's ISO string passed in. */
    method HandleStartExam(isoTimestamp: string)
      requires Valid()
      modifies this
      ensures Valid() && State() == StartExam(old(State()), examId, isoTimestamp)
    {
      if user.None? || !Truthy(examId) {
        return;
      }
      sessionId := Some(SessionId(examId.value, user.value.username, isoTimestamp));
      examStarted := true;
      sent := sent + [Payload("web", user.value.username, sessionId.value, [ExamStartedMessage])];
    }

    /** The monitoring effect after a change of `examStarted`. */
    method MonitorEffect()
      requires Valid()
      modifies this
      ensures Valid() && State() == RunEffect(old(State()))
    {
      Unmount();
      if !examStarted {
        return;
      }
      listeners := listeners + AllListeners;
    }

    /** The effect's cleanup, run before the next effect and on unmount. */
    method Unmount()
      requires Valid()
      modifies this
      ensures Valid() && State() == Cleanup(old(State()))
    {
      listeners := listeners - AllListeners;
    }

    /** The browser delivers `e` at time `now` (`Date.now()`); the results say
        whether the listener suppressed the default action and what it set as
        `returnValue`. */
    method Dispatch(e: Event, now: int) returns (prevented: bool, returnValue: Option<string>)
      requires Valid()
      modifies this
      ensures Valid() && State() == HandleEvent(old(State()), e, now)
      ensures prevented == (ListenerFor(e) in old(listeners) && PreventsDefault(e))
      ensures returnValue == if ListenerFor(e) in old(listeners) && e.BeforeUnload? then Some(LeaveMessage) else None
    {
      prevented, returnValue := false, None;
      if ListenerFor(e) !in listeners {
        return;
      }
      AtMostOneLabel(e);
      match e
      case Copy =>
        prevented := true;
        violations := violations + 1;
        SendWebAlert("COPY_ATTEMPT", now);
      case Cut =>
        prevented := true;
        violations := violations + 1;
        SendWebAlert("CUT_ATTEMPT", now);
      case Paste =>
        prevented := true;
        violations := violations + 1;
        SendWebAlert("PASTE_ATTEMPT", now);
      case ContextMenu =>
        prevented := true;
        violations := violations + 1;
        SendWebAlert("CONTEXT_MENU", now);
      case KeyDown(key, ctrlKey, metaKey) =>
        prevented := OnKeyDown(key, ctrlKey, metaKey, now);
      case VisibilityChange(hidden) =>
        if hidden {
          violations := violations + 1;
          SendWebAlert("TAB_SWITCH_OR_MINIMIZE", now);
        }
      case Blur =>
        violations := violations + 1;
        SendWebAlert("WINDOW_BLUR", now);
      case BeforeUnload =>
        SendWebAlert("PAGE_UNLOAD_ATTEMPT", now);
        returnValue := Some(LeaveMessage);
      case FullscreenChange(hasFullscreenElement) =>
        if !hasFullscreenElement {
          violations := violations + 1;
          SendWebAlert("EXIT_FULLSCREEN", now);
        }
    }

    /** `onKeyDown`, with its listener registered: the Ctrl/Cmd shortcut
        branch, then the independent F12 branch; the result says whether it
        called `preventDefault()`. */
    method OnKeyDown(key: string, ctrlKey: bool, metaKey: bool, now: int) returns (prevented: bool)
      requires Valid() && KeyDownListener in listeners
      modifies this
      ensures Valid() && State() == HandleEvent(old(State()), KeyDown(key, ctrlKey, metaKey), now)
      ensures prevented == PreventsDefault(KeyDown(key, ctrlKey, metaKey))
    {
      KeyDownClassification(key, ctrlKey, metaKey);
      AtMostOneLabel(KeyDown(key, ctrlKey, metaKey));
      prevented := false;
      var k := ToLower(key);
      if (ctrlKey || metaKey) && IsShortcutKey(k) {
        prevented := true;
        violations := violations + 1;
        SendWebAlert("SHORTCUT_" + ToUpper(k), now);
      }
      if key == "F12" {
        prevented := true;
        violations := violations + 1;
        SendWebAlert("DEVTOOLS_OPEN_ATTEMPT", now);
      }
    }

    /** The throttled `sendWebAlert`. */
    method SendWebAlert(message: string, now: int)
      requires Valid()
      modifies this`lastAlertTs, this`sent
      ensures Valid() && State() == SendAlert(old(State()), message, now)
    {
      if now - lastAlertTs < ThrottleMs {
        return;
      }
      lastAlertTs := now;
      var payload := AlertPayload(user, sessionId, message);
      if payload.None? {
        return;
      }
      sent := sent + [payload.value];
    }
  }
}
