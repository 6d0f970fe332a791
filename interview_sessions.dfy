/** The server actions of the interview assistant: interview sessions stored as hashes
    `session:{id}` holding the interview settings, the owner, a completion flag and the
    whole message list, indexed per user in `user:sessions:{userId}`, and feedback texts
    stored under `feedback:{sessionId}`.

    The signed-in user, generated ids, clock readings, the model lookup (which lives in a
    `utils` module that is not part of this model and may throw) and the language model's
    replies are parameters. */
module InterviewSessions {
  import opened Wrappers
  import opened Text
  import opened KeyValue
  import opened Listing

  function SessionKey(sessionId: string): string { "session:" + sessionId }
  function UserSessionsKey(userId: string): string { "user:sessions:" + userId }
  function FeedbackKey(sessionId: string): string { "feedback:" + sessionId }

  /** The settings the interview form submits. The job description is stored with the
      others but appears in neither the welcome nor the system prompt. */
  datatype InterviewConfig = InterviewConfig(
    jobType: string, jobDescription: string, difficulty: string, questionType: string, questionCount: int)

  /** The signed-in user as `auth()` reports it; `None` or `""` is nobody. */
  predicate SignedIn(userId: Option<string>) {
    userId.Some? && userId.value != ""
  }

  // The fixed wording of the welcome and of the system prompt, between the settings.
  const WelcomeOpening := "Hello and welcome to your "
  const WelcomeCount := " interview! I'm your interviewer today, and I'll be asking you "
  const WelcomeLevel := " questions at the "
  const WelcomeClosing := " level. I'll provide feedback after each of your responses and guide you if needed. Take your time to think through your answers - this is about understanding your approach and thought process. Ready to begin?"
  const PromptOpening := "You are an interviewer for a "
  const PromptLevel := " position. \n    Conduct a "
  const PromptKind := " level interview with "
  const PromptCount := " questions. \n    Plan to ask "
  const PromptClosing := " questions in total. \n    Ask one question at a time and wait for the candidate's response before asking the next question.\n    Provide constructive feedback after each answer.\n    When appropriate, guide the candidate if they're heading in the wrong direction.\n    At the end, summarize the interview with strengths and areas of improvement."

  function WelcomeText(c: InterviewConfig): string {
    WelcomeOpening + c.jobType + WelcomeCount + IntToString(c.questionCount) + " " + c.questionType
    + WelcomeLevel + c.difficulty + WelcomeClosing
  }

  function SystemPromptText(c: InterviewConfig): string {
    PromptOpening + c.jobType + PromptLevel + c.difficulty + PromptKind + c.questionType
    + PromptCount + IntToString(c.questionCount) + PromptClosing
  }

  function ChatMessage(id: string, role: string, content: string, sessionId: string): Value {
    Record(map["id" := Str(id), "role" := Str(role), "content" := Str(content), "sessionId" := Str(sessionId)])
  }

  function WelcomeMessage(c: InterviewConfig, welcomeId: string, sessionId: string): Value {
    ChatMessage(welcomeId, "assistant", WelcomeText(c), sessionId)
  }

  function SystemMessage(c: InterviewConfig): Value {
    Record(map["role" := Str("system"), "content" := Str(SystemPromptText(c))])
  }

  /** The conversation a new session starts with: the system prompt, then the welcome. */
  function InitialMessages(c: InterviewConfig, welcomeId: string, sessionId: string): Value {
    List([SystemMessage(c), WelcomeMessage(c, welcomeId, sessionId)])
  }

  /** The interview settings as the session stores them. */
  function ConfigFields(c: InterviewConfig): Hash {
    map["jobType" := Str(c.jobType), "jobDescription" := Str(c.jobDescription), "difficulty" := Str(c.difficulty),
        "questionType" := Str(c.questionType), "questionCount" := Int(c.questionCount)]
  }

  /** The hash a new session is stored as: the settings, then the owner, not completed, the
      creation time and the initial conversation. */
  function NewSession(c: InterviewConfig, userId: string, now: int, messages: Value): (h: Hash)
    ensures "userId" in h && h["userId"] == Str(userId)
    ensures "isCompleted" in h && h["isCompleted"] == Bool(false)
    ensures "createdAt" in h && h["createdAt"] == Int(now)
    ensures "messages" in h && h["messages"] == messages
    ensures h.Keys == ConfigFields(c).Keys + {"userId", "isCompleted", "createdAt", "messages"}
    ensures forall f :: f in ConfigFields(c) ==> h[f] == ConfigFields(c)[f]
  {
    ConfigFields(c) + map["userId" := Str(userId), "isCompleted" := Bool(false), "createdAt" := Int(now),
                          "messages" := messages]
  }

  datatype Created = Created(sessionId: string, initialAIState: seq<Value>)

  /** Refuses a caller who is not signed in; otherwise stores the session with the system
      prompt and the welcome as its messages, registers it with its owner, and hands back
      only the welcome as the conversation so far. */
  method CreateInterviewSession(db: Store, userId: Option<string>, config: InterviewConfig,
                                sessionId: string, welcomeId: string, now: int)
    returns (r: Result<Created>)
    modifies db
    ensures !SignedIn(userId) ==> r == Err("Unauthorized") && db.Snap() == old(db.Snap())
    ensures SignedIn(userId) ==>
      && r == Ok(Created(sessionId, [WelcomeMessage(config, welcomeId, sessionId)]))
      && db.hashes == HSetOn(old(db.hashes), SessionKey(sessionId), NewSession(config, userId.value, now, InitialMessages(config, welcomeId, sessionId)))
      && db.sets == SAdded(old(db.sets), UserSessionsKey(userId.value), sessionId)
      && db.lists == old(db.lists) && db.strings == old(db.strings) && db.expiries == old(db.expiries)
    ensures r.Ok? ==> GetInterviewSession(db, userId, sessionId).Ok?
  {
    if !SignedIn(userId) {
      return Err("Unauthorized");
    }
    var session := NewSession(config, userId.value, now, InitialMessages(config, welcomeId, sessionId));
    db.HSet(SessionKey(sessionId), session);
    HSetOwned(old(db.hashes), SessionKey(sessionId), session, userId.value);
    db.SAdd(UserSessionsKey(userId.value), sessionId);
    r := Ok(Created(sessionId, [WelcomeMessage(config, welcomeId, sessionId)]));
  }

  /** A stored session that exists and belongs to `userId`. */
  predicate OwnedBy(h: Hash, userId: string) {
    h != map[] && "userId" in h && h["userId"] == Str(userId)
  }

  predicate IsCompleted(h: Hash) {
    "isCompleted" in h && Truthy(h["isCompleted"])
  }

  /** Writing an owner field makes the hash owned by that user, whatever was there. */
  lemma HSetOwned(hashes: map<string, Hash>, key: string, fields: Hash, userId: string)
    requires "userId" in fields && fields["userId"] == Str(userId)
    ensures OwnedBy(FieldsAt(HSetOn(hashes, key, fields), key), userId)
  {
    var stored := FieldsAt(HSetOn(hashes, key, fields), key);
    assert "userId" in stored && stored["userId"] == fields["userId"];
  }

  /** The owner check shared by reading, completing and continuing a session. */
  function GetInterviewSession(db: Store, userId: Option<string>, sessionId: string): (r: Result<Hash>)
    reads db
    ensures !SignedIn(userId) ==> r == Err("Unauthorized")
    ensures SignedIn(userId) && !OwnedBy(db.Fields(SessionKey(sessionId)), userId.value) ==>
      r == Err("Session not found or access denied")
    ensures SignedIn(userId) && OwnedBy(db.Fields(SessionKey(sessionId)), userId.value) ==>
      r == Ok(db.Fields(SessionKey(sessionId)))
  {
    if !SignedIn(userId) then Err("Unauthorized")
    else
      var session := db.HGetAll(SessionKey(sessionId));
      if session.None? || "userId" !in session.value || session.value["userId"] != Str(userId.value)
      then Err("Session not found or access denied")
      else Ok(session.value)
  }

  /** The row `fetchInterviewSessions` builds for one id: the stored session (nothing when it
      is gone) tagged with the id. */
  function SessionView(db: Store, sessionId: string): (h: Hash)
    reads db
    ensures "id" in h && h["id"] == Str(sessionId)
  {
    db.Fields(SessionKey(sessionId)) + map["id" := Str(sessionId)]
  }

  function SessionViews(db: Store, ids: seq<string>): (r: seq<Hash>)
    reads db
    ensures |r| == |ids|
    ensures forall i :: 0 <= i < |ids| ==> r[i] == SessionView(db, ids[i])
  {
    if ids == [] then [] else [SessionView(db, ids[0])] + SessionViews(db, ids[1..])
  }

  /** The user's sessions, one row per id in their set, newest first. No sign-in check is
      made: any caller may list any user's sessions. */
  method FetchInterviewSessions(db: Store, userId: string) returns (rows: seq<Hash>)
    ensures SortedDesc(rows, "createdAt")
    ensures forall h :: h in rows <==> exists id :: id in db.Members(UserSessionsKey(userId)) && h == SessionView(db, id)
    ensures |rows| == |db.Members(UserSessionsKey(userId))|
  {
    var ids := db.SMembers(UserSessionsKey(userId));
    var views := SessionViews(db, ids);
    rows := SortDesc(views, "createdAt");
    SortDescSorted(views, "createdAt");
    SortDescSameRows(views, "createdAt");
    ViewsOfMembers(db, ids, UserSessionsKey(userId));
  }

  /** The rows built from the ids of a set are the views of its members. */
  lemma ViewsOfMembers(db: Store, ids: seq<string>, key: string)
    requires ToSet(ids) == db.Members(key)
    ensures forall h :: h in SessionViews(db, ids) <==> exists id :: id in db.Members(key) && h == SessionView(db, id)
  {
    var views := SessionViews(db, ids);
    forall h
      ensures h in views <==> exists id :: id in db.Members(key) && h == SessionView(db, id)
    {
      if h in views {
        var i :| 0 <= i < |views| && views[i] == h;
        assert ids[i] in ToSet(ids);
      }
      if exists id :: id in db.Members(key) && h == SessionView(db, id) {
        var id :| id in db.Members(key) && h == SessionView(db, id);
        assert id in ToSet(ids);
        var i :| 0 <= i < |ids| && ids[i] == id;
        assert views[i] == h;
      }
    }
  }

  /** After the owner check, an already-completed session is returned as it is with no
      write; otherwise it is stored with `isCompleted` set and `completedAt` stamped, and
      returned likewise. The clock is read once for the stored copy (`storedAt`) and once
      more for the returned one (`returnedAt`), so the two agree on every field but
      `completedAt`. Either way a successful call leaves the session completed, so a
      second call writes nothing. */
  method CompleteInterviewSession(db: Store, userId: Option<string>, sessionId: string,
                                  storedAt: int, returnedAt: int)
    returns (r: Result<Hash>)
    modifies db
    ensures old(GetInterviewSession(db, userId, sessionId)).Err? ==>
      r == old(GetInterviewSession(db, userId, sessionId)) && db.Snap() == old(db.Snap())
    ensures old(GetInterviewSession(db, userId, sessionId)).Ok? && old(IsCompleted(db.Fields(SessionKey(sessionId)))) ==>
      r == old(GetInterviewSession(db, userId, sessionId)) && db.Snap() == old(db.Snap())
    ensures old(GetInterviewSession(db, userId, sessionId)).Ok? && !old(IsCompleted(db.Fields(SessionKey(sessionId)))) ==>
      && r == Ok(old(db.Fields(SessionKey(sessionId))) + map["isCompleted" := Bool(true), "completedAt" := Int(returnedAt)])
      && db.hashes == old(db.hashes)[SessionKey(sessionId) :=
           old(db.Fields(SessionKey(sessionId))) + map["isCompleted" := Bool(true), "completedAt" := Int(storedAt)]]
      && db.sets == old(db.sets) && db.lists == old(db.lists)
      && db.strings == old(db.strings) && db.expiries == old(db.expiries)
    ensures r.Ok? ==> IsCompleted(db.Fields(SessionKey(sessionId))) && IsCompleted(r.value)
    ensures r.Ok? ==> r.value.Keys == db.Fields(SessionKey(sessionId)).Keys
                      && forall f :: f in r.value && f != "completedAt" ==> r.value[f] == db.Fields(SessionKey(sessionId))[f]
  {
    var session := GetInterviewSession(db, userId, sessionId);
    if session.Err? {
      return session;
    }
    if IsCompleted(session.value) {
      return session;
    }
    var stored := session.value + map["isCompleted" := Bool(true), "completedAt" := Int(storedAt)];
    db.HSet(SessionKey(sessionId), stored);
    assert session.value + stored == stored;
    r := Ok(session.value + map["isCompleted" := Bool(true), "completedAt" := Int(returnedAt)]);
  }

  /** The stored messages when they are a list, nothing otherwise. */
  function StoredMessages(h: Hash): seq<Value> {
    if "messages" in h && h["messages"].List? then h["messages"].items else []
  }

  /** The message the action hands back to the chat: a fresh id, the assistant role and the
      text of the element the streaming call returned. */
  datatype AssistantTurn = AssistantTurn(id: string, role: string, content: string)

  /** After the owner check, a completed session is refused. Otherwise the user's message is
      appended to the stored list and saved at once. Then the model is streamed: `stream` is
      `Err` when that call rejects, which throws with only the first save made, and otherwise
      the text of the element it returns. When the model's reply has streamed to the end
      (`reply` is `Some`), the reply is appended after the user's message and saved again.
      A completed session is never written. */
  method ContinueConversationAndSave(db: Store, userId: Option<string>, sessionId: string, input: string,
                                     modelError: Option<string>, userMessageId: string, now: int,
                                     stream: Result<string>, reply: Option<string>, replyId: string, doneAt: int,
                                     turnId: string)
    returns (r: Result<AssistantTurn>)
    modifies db
    ensures old(GetInterviewSession(db, userId, sessionId)).Err? ==>
      r == Err(old(GetInterviewSession(db, userId, sessionId)).message) && db.Snap() == old(db.Snap())
    ensures old(GetInterviewSession(db, userId, sessionId)).Ok? && old(IsCompleted(db.Fields(SessionKey(sessionId)))) ==>
      r == Err("Cannot update a completed interview session") && db.Snap() == old(db.Snap())
    ensures old(GetInterviewSession(db, userId, sessionId)).Ok? && !old(IsCompleted(db.Fields(SessionKey(sessionId))))
            && modelError.Some? ==>
      r == Err(modelError.value) && db.Snap() == old(db.Snap())
    ensures old(GetInterviewSession(db, userId, sessionId)).Ok? && !old(IsCompleted(db.Fields(SessionKey(sessionId))))
            && modelError.None? && stream.Err? ==>
      var session := old(db.Fields(SessionKey(sessionId)));
      var withUser := StoredMessages(session) + [ChatMessage(userMessageId, "user", input, sessionId)];
      && r == Err(stream.message)
      && db.hashes == old(db.hashes)[SessionKey(sessionId) :=
           session + map["messages" := List(withUser), "updatedAt" := Int(now)]]
      && db.sets == old(db.sets) && db.lists == old(db.lists)
      && db.strings == old(db.strings) && db.expiries == old(db.expiries)
    ensures old(GetInterviewSession(db, userId, sessionId)).Ok? && !old(IsCompleted(db.Fields(SessionKey(sessionId))))
            && modelError.None? && stream.Ok? ==>
      var session := old(db.Fields(SessionKey(sessionId)));
      var withUser := StoredMessages(session) + [ChatMessage(userMessageId, "user", input, sessionId)];
      && r == Ok(AssistantTurn(turnId, "assistant", stream.value))
      && db.hashes == old(db.hashes)[SessionKey(sessionId) :=
           if reply.None? then session + map["messages" := List(withUser), "updatedAt" := Int(now)]
           else session + map["messages" := List(withUser + [ChatMessage(replyId, "assistant", reply.value, sessionId)]),
                               "updatedAt" := Int(doneAt)]]
      && db.sets == old(db.sets) && db.lists == old(db.lists)
      && db.strings == old(db.strings) && db.expiries == old(db.expiries)
    ensures r.Ok? ==>
      |StoredMessages(db.Fields(SessionKey(sessionId)))| == |StoredMessages(old(db.Fields(SessionKey(sessionId))))| + if reply.None? then 1 else 2
  {
    var session := GetInterviewSession(db, userId, sessionId);
    if session.Err? {
      return Err(session.message);
    }
    if IsCompleted(session.value) {
      return Err("Cannot update a completed interview session");
    }
    if modelError.Some? {
      return Err(modelError.value);
    }
    var messages := StoredMessages(session.value);
    var updated := messages + [ChatMessage(userMessageId, "user", input, sessionId)];
    var first := session.value + map["messages" := List(updated), "updatedAt" := Int(now)];
    db.HSet(SessionKey(sessionId), first);
    assert session.value + first == first;
    if stream.Err? {
      return Err(stream.message);
    }
    if reply.Some? {
      var final := updated + [ChatMessage(replyId, "assistant", reply.value, sessionId)];
      var second := session.value + map["messages" := List(final), "updatedAt" := Int(doneAt)];
      db.HSet(SessionKey(sessionId), second);
      assert first + second == second;
    }
    r := Ok(AssistantTurn(turnId, "assistant", stream.value));
  }

  /** One line of the feedback prompt per message; reading a field of `null` throws. */
  function MessageLine(m: Value): Result<string> {
    match m
    case Null => Err("Cannot read properties of null (reading 'role')")
    case Record(f) => Ok(FieldText(f, "role") + ": " + FieldText(f, "content"))
    case _ => Ok("undefined: undefined")
  }

  function MessageLines(ms: seq<Value>): (r: Result<seq<string>>)
    ensures r.Ok? <==> forall i :: 0 <= i < |ms| ==> !ms[i].Null?
    ensures r.Ok? ==> |r.value| == |ms| && forall i :: 0 <= i < |ms| ==> r.value[i] == MessageLine(ms[i]).value
  {
    if ms == [] then Ok([])
    else match (MessageLine(ms[0]), MessageLines(ms[1..]))
      case (Ok(l), Ok(ls)) => Ok([l] + ls)
      case (Err(e), _) => Err(e)
      case (_, Err(e)) => Err(e)
  }

  const FeedbackHeader := "\n  Please provide comprehensive feedback for this interview.\n      The session contains the following messages:\n      "
  /** The points the feedback must cover, one per line of the prompt's closing part. */
  const FeedbackPoints := [
    "Provide a structured feedback summary covering these points:",
    "- Overall performance: Assess the candidate's overall performance.",
    "- Strengths: Highlight the candidate's strengths demonstrated during the interview.",
    "- Areas for improvement: Suggest areas where the candidate could improve.",
    "- Technical skills: Evaluate the candidate's technical skills based on their responses.",
    "- Communication skills: Assess the candidate's communication skills.",
    "- Recommendations: Provide specific recommendations for the candidate."]
  const FeedbackFooter := "\n\n      " + Join(FeedbackPoints, "\n      ") + "\n  "

  /** The prompt for a session's messages (`session.messages || []`): a value that is
      neither falsy nor a list has no `map` and throws. */
  function FeedbackPrompt(messages: Option<Value>): (r: Result<string>)
  {
    var items: Result<seq<Value>> :=
      if messages.None? || !Truthy(messages.value) then Ok([])
      else if messages.value.List? then Ok(messages.value.items)
      else Err("messages.map is not a function");
    match items
    case Err(e) => Err(e)
    case Ok(ms) =>
      match MessageLines(ms)
      case Err(e) => Err(e)
      case Ok(lines) => Ok(FeedbackHeader + Join(lines, "\n") + FeedbackFooter)
  }

  /** Every message's `role: content` line is in the prompt. */
  lemma FeedbackPromptHasEveryMessage(ms: seq<Value>)
    requires FeedbackPrompt(Some(List(ms))).Ok?
    ensures forall i :: 0 <= i < |ms| ==> OccursIn(FeedbackPrompt(Some(List(ms))).value, MessageLine(ms[i]).value)
  {
    var lines := MessageLines(ms).value;
    var prompt := FeedbackPrompt(Some(List(ms))).value;
    assert prompt == FeedbackHeader + Join(lines, "\n") + FeedbackFooter;
    JoinedLinesOccur(FeedbackHeader, lines, FeedbackFooter);
    forall i | 0 <= i < |ms|
      ensures OccursIn(prompt, MessageLine(ms[i]).value)
    {
      assert lines[i] == MessageLine(ms[i]).value;
    }
  }

  /** Each line of a newline-joined block occurs in a text that embeds the block. */
  lemma JoinedLinesOccur(header: string, lines: seq<string>, footer: string)
    ensures forall i :: 0 <= i < |lines| ==> OccursIn(header + Join(lines, "\n") + footer, lines[i])
  {
    JoinHasParts(lines, "\n");
    forall i | 0 <= i < |lines|
      ensures OccursIn(header + Join(lines, "\n") + footer, lines[i])
    {
      var k :| OccursAt(Join(lines, "\n"), lines[i], k);
      OccursInConcat(header, Join(lines, "\n"), footer, lines[i], k);
    }
  }

  /** Signed-in callers only, but any existing session will do: ownership is not checked.
      A generation failure (`generate` answering `None`) becomes a fixed apology. */
  function GenerateInterviewFeedback(db: Store, userId: Option<string>, sessionId: string,
                                     modelError: Option<string>, generate: string -> Option<string>): (r: Result<string>)
    reads db
    ensures !SignedIn(userId) ==> r == Err("Unauthorized")
    ensures SignedIn(userId) && db.Fields(SessionKey(sessionId)) == map[] ==> r == Err("Session not found")
    ensures SignedIn(userId) && db.Fields(SessionKey(sessionId)) != map[] ==>
      var session := db.Fields(SessionKey(sessionId));
      var prompt := FeedbackPrompt(if "messages" in session then Some(session["messages"]) else None);
      && (prompt.Err? ==> r == Err(prompt.message))
      && (prompt.Ok? && modelError.Some? ==> r == Err(modelError.value))
      && (prompt.Ok? && modelError.None? ==>
            r == Ok(if generate(prompt.value).Some? then generate(prompt.value).value
                    else "Error generating feedback. Please try again."))
  {
    if !SignedIn(userId) then Err("Unauthorized")
    else
      var session := db.HGetAll(SessionKey(sessionId));
      if session.None? then Err("Session not found")
      else
        var prompt := FeedbackPrompt(if "messages" in session.value then Some(session.value["messages"]) else None);
        if prompt.Err? then Err(prompt.message)
        else if modelError.Some? then Err(modelError.value)
        else match generate(prompt.value)
          case Some(text) => Ok(text)
          case None => Ok("Error generating feedback. Please try again.")
  }

  /** The saved feedback, or `None` when there is none or it is empty. */
  function GetInterviewFeedback(db: Store, sessionId: string): (r: Option<string>)
    reads db
    ensures r.Some? <==> FeedbackKey(sessionId) in db.strings && Truthy(db.strings[FeedbackKey(sessionId)])
    ensures r.Some? ==> r.value == ToJsString(db.strings[FeedbackKey(sessionId)])
  {
    var key := FeedbackKey(sessionId);
    if key in db.strings && Truthy(db.strings[key]) then Some(ToJsString(db.strings[key])) else None
  }

  /** Saving then reading gives the saved text back; an empty text reads back as absent. */
  method SaveInterviewFeedback(db: Store, sessionId: string, feedback: string)
    modifies db
    ensures db.strings == old(db.strings)[FeedbackKey(sessionId) := Str(feedback)]
    ensures db.hashes == old(db.hashes) && db.sets == old(db.sets) && db.lists == old(db.lists)
    ensures db.expiries == old(db.expiries) - {FeedbackKey(sessionId)}
    ensures GetInterviewFeedback(db, sessionId) == if feedback == "" then None else Some(feedback)
  {
    db.Set(FeedbackKey(sessionId), Str(feedback));
  }
}
