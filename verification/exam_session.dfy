/** The exam-session pieces shared by the live exam page and its disabled
    monitoring variant (frontend/src/pages/ExamPage.jsx): the start guard,
    the session identifier `exam_{examId}_{username}_{timestamp}`, and the
    guard that decides whether an alert payload for `POST /log_data` is built. */
module ExamSession {
  import opened JsStrings

  /** The user record read from local storage at page load. */
  datatype User = User(username: string)

  /** Body of a `POST /log_data` request. */
  datatype Payload = Payload(source: string, studentId: string, sessionId: string, alerts: seq<string>)

  /** The characters `replace(/[-:.]/g, '')` removes from the ISO timestamp. */
  predicate IsIsoPunct(c: char) {
    c == '-' || c == ':' || c == '.'
  }

  predicate NoIsoPunct(s: string) {
    forall i :: 0 <= i < |s| ==> !IsIsoPunct(s[i])
  }

  /** The timestamp with every '-', ':' and '.' removed: none of them is left. */
  function StripIsoPunct(t: string): (r: string)
    ensures |r| <= |t|
    ensures NoIsoPunct(r)
  {
    if t == [] then []
    else (if IsIsoPunct(t[0]) then [] else [t[0]]) + StripIsoPunct(t[1..])
  }

  /** Every character other than '-', ':' and '.' occurs in the stripped
      timestamp exactly as often as in the original. */
  lemma {:induction false} StripKeepsOtherCharacters(t: string, c: char)
    requires !IsIsoPunct(c)
    ensures multiset(StripIsoPunct(t))[c] == multiset(t)[c]
  {
    if t != [] {
      assert t == [t[0]] + t[1..];
      StripKeepsOtherCharacters(t[1..], c);
    }
  }

  /** Stripping works piece by piece, so the kept characters stay in order. */
  lemma {:induction false} StripConcat(a: string, b: string)
    ensures StripIsoPunct(a + b) == StripIsoPunct(a) + StripIsoPunct(b)
  {
    if a == [] {
      assert a + b == b;
    } else {
      var head := if IsIsoPunct(a[0]) then [] else [a[0]];
      assert (a + b)[0] == a[0] && (a + b)[1..] == a[1..] + b;
      assert StripIsoPunct(a + b) == head + StripIsoPunct(a[1..] + b);
      StripConcat(a[1..], b);
      assert StripIsoPunct(a) == head + StripIsoPunct(a[1..]);
    }
  }

  /** A timestamp without punctuation is kept as it is; in particular
      stripping twice is stripping once. */
  lemma {:induction false} StripKeepsClean(t: string)
    requires NoIsoPunct(t)
    ensures StripIsoPunct(t) == t
  {
    if t != [] {
      StripKeepsClean(t[1..]);
    }
  }

  /** `handleStartExam` goes ahead only when a user is loaded and the route
      supplied a (truthy) exam id. */
  predicate StartAllowed(user: Option<User>, examId: Option<string>) {
    user.Some? && Truthy(examId)
  }

  /** The session identifier `exam_{examId}_{username}_{T}`, where T is the ISO
      timestamp with its punctuation removed. */
  function SessionId(examId: string, username: string, timestamp: string): (r: string)
    ensures |r| == 7 + |examId| + |username| + |StripIsoPunct(timestamp)|
    ensures Truthy(Some(r))
  {
    "exam_" + examId + "_" + username + "_" + StripIsoPunct(timestamp)
  }

  /** The identifier reads back into its parts: the prefix, the exam id, the
      user name, and the stripped timestamp, separated by underscores. */
  lemma SessionIdParts(examId: string, username: string, timestamp: string)
    ensures var r, e, u := SessionId(examId, username, timestamp), |examId|, |username|;
      && r[..5] == "exam_"
      && r[5..5 + e] == examId
      && r[5 + e] == '_'
      && r[6 + e..6 + e + u] == username
      && r[6 + e + u] == '_'
      && r[7 + e + u..] == StripIsoPunct(timestamp)
      && NoIsoPunct(r[7 + e + u..])
  {
    var r := SessionId(examId, username, timestamp);
    var e, u := |examId|, |username|;
    assert r == "exam_" + examId + "_" + username + "_" + StripIsoPunct(timestamp);
    assert r[..5] == "exam_";
    assert r[5..5 + e] == examId;
    assert r[6 + e..6 + e + u] == username;
    assert r[7 + e + u..] == StripIsoPunct(timestamp);
  }

  /** For a fixed exam and user, the identifier determines the stripped
      timestamp: two starts give the same id only at the same instant
      (up to punctuation). */
  lemma SessionIdDeterminesTimestamp(examId: string, username: string, t1: string, t2: string)
    requires SessionId(examId, username, t1) == SessionId(examId, username, t2)
    ensures StripIsoPunct(t1) == StripIsoPunct(t2)
  {
    SessionIdParts(examId, username, t1);
    SessionIdParts(examId, username, t2);
  }

  /** Only the timestamp is stripped: punctuation in the exam id survives. */
  lemma SessionIdKeepsExamIdPunctuation(examId: string, username: string, timestamp: string, i: nat)
    requires i < |examId|
    ensures SessionId(examId, username, timestamp)[5 + i] == examId[i]
  {
    SessionIdParts(examId, username, timestamp);
    assert SessionId(examId, username, timestamp)[5..5 + |examId|][i] == examId[i];
  }

  /** The payload `sendWebAlert` builds, or None when the user or the session
      id is missing and the helper returns early. */
  function AlertPayload(user: Option<User>, sessionId: Option<string>, message: string): (r: Option<Payload>)
    ensures r.Some? <==> user.Some? && Truthy(sessionId)
    ensures r.Some? ==> r.value.source == "web" && r.value.alerts == [message]
    ensures r.Some? ==> r.value.studentId == user.value.username && r.value.sessionId == sessionId.value
  {
    if user.None? || !Truthy(sessionId) then None
    else Some(Payload("web", user.value.username, sessionId.value, [message]))
  }

  /** The payloads a call adds to the list of requests sent. */
  function Sent(p: Option<Payload>): (r: seq<Payload>)
    ensures |r| <= 1
    ensures r == [] <==> p.None?
  {
    if p.Some? then [p.value] else []
  }

  /** Once a session has started, every alert builds a payload carrying that
      session's id. */
  lemma StartedSessionAlwaysBuildsPayload(user: User, examId: string, timestamp: string, message: string)
    ensures AlertPayload(Some(user), Some(SessionId(examId, user.username, timestamp)), message)
         == Some(Payload("web", user.username, SessionId(examId, user.username, timestamp), [message]))
  {
  }
}
