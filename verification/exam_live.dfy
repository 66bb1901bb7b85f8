/** The live exam page (frontend/src/pages/ExamPage.jsx, lines 1-261): the
    start button builds the session id and arms the page, and while the exam
    runs a `visibilitychange` listener reports tab switches through
    `sendWebAlert`. Network requests are recorded in the ghost list `sent`. */
module ExamLive {
  import opened JsStrings
  import opened ExamSession

  /** The message the live visibility listener sends. */
  const SwitchedTabs := "WEB: Switched tabs"

  class ExamPage {
    var user: Option<User>
    const examId: Option<string>
    var examStarted: bool
    /** `sessionIdRef.current` */
    var sessionId: Option<string>
    /** Whether `handleVisibilityChange` is registered on the document. */
    var visibilityListener: bool
    /** Every `POST /log_data` body issued, in order. */
    ghost var sent: seq<Payload>

    /** A started exam has a user and a session id, and the listener is only
        ever registered for a started exam. */
    ghost predicate Valid()
      reads this
    {
      && (examStarted ==> user.Some? && Truthy(sessionId))
      && (visibilityListener ==> examStarted)
    }

    /** The page once the user record has been read from local storage. */
    constructor (user: Option<User>, examId: Option<string>)
      ensures Valid()
      ensures this.user == user && this.examId == examId
      ensures !examStarted && sessionId == None && !visibilityListener && sent == []
    {
      this.user := user;
      this.examId := examId;
      examStarted := false;
      sessionId := None;
      visibilityListener := false;
      sent := [];
    }

    /** `handleStartExam`, with the clock's ISO string passed in. */
    method HandleStartExam(isoTimestamp: string)
      requires Valid()
      modifies this`sessionId, this`examStarted
      ensures Valid()
      ensures StartAllowed(user, examId) ==>
        sessionId == Some(SessionId(examId.value, user.value.username, isoTimestamp)) && examStarted
      ensures !StartAllowed(user, examId) ==>
        sessionId == old(sessionId) && examStarted == old(examStarted)
    {
      if user.None? || !Truthy(examId) {
        return;
      }
      sessionId := Some(SessionId(examId.value, user.value.username, isoTimestamp));
      examStarted := true;
    }

    /** The `[examStarted]` effect as React runs it after a render: the previous
        run's cleanup removes the listener (registered or not), then the body
        registers it again only if the exam has started. */
    method VisibilityEffect()
      requires Valid()
      modifies this`visibilityListener
      ensures Valid()
      ensures visibilityListener == examStarted
    {
      VisibilityCleanup();
      if examStarted {
        visibilityListener := true;
      }
    }

    /** The effect's cleanup, also run when the page unmounts. */
    method VisibilityCleanup()
      requires Valid()
      modifies this`visibilityListener
      ensures Valid()
      ensures !visibilityListener
    {
      visibilityListener := false;
    }

    /** The browser fires `visibilitychange` with `document.hidden`: the
        listener, if registered, reports only a hidden document. */
    method OnVisibilityChange(hidden: bool)
      requires Valid()
      modifies this`sent
      ensures Valid()
      ensures visibilityListener && hidden ==>
        sent == old(sent) + [Payload("web", user.value.username, sessionId.value, [SwitchedTabs])]
      ensures !(visibilityListener && hidden) ==> sent == old(sent)
    {
      if visibilityListener && hidden {
        SendWebAlert(SwitchedTabs);
      }
    }

    /** `sendWebAlert`: posts the alert unless the user or the session id is
        missing. */
    method SendWebAlert(message: string)
      requires Valid()
      modifies this`sent
      ensures Valid()
      ensures sent == old(sent) + Sent(AlertPayload(user, sessionId, message))
    {
      var payload := AlertPayload(user, sessionId, message);
      if payload.None? {
        return;
      }
      sent := sent + [payload.value];
    }
  }

  /** The live rule as a whole: a page that was never started sends nothing
      whatever the browser does, while a started page reports each hidden
      document once its effect has run. */
  method LiveVisibilityScenario(user: User, examId: string, isoTimestamp: string, hidden: bool)
    returns (page: ExamPage)
    ensures fresh(page) && page.examStarted == Truthy(Some(examId))
    ensures |page.sent| == if Truthy(Some(examId)) && hidden then 1 else 0
  {
    page := new ExamPage(Some(user), Some(examId));
    page.VisibilityEffect();
    page.OnVisibilityChange(hidden);
    assert page.sent == [];
    page.HandleStartExam(isoTimestamp);
    page.VisibilityEffect();
    page.OnVisibilityChange(hidden);
  }
}
