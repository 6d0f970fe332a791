/** The guarded chat route: a prompt must be 1 to 500 characters long, the caller must be
    signed in, and each user may send 10 messages per UTC day, counted in a store key
    `message_count:{userId}:{date}` that expires a day after its first use.

    The current date, the signed-in user, the redaction of personal data and the language
    model are parameters. */
module MessageQuota {
  import opened Wrappers
  import opened KeyValue

  const DailyLimit := 10
  const DaySeconds := 24 * 60 * 60
  const QuotaMessage := "Message quota exceeded. You can only send 10 messages per day."

  /** One counter per user per day; `today` is the `YYYY-MM-DD` part of the ISO time. */
  function QuotaKey(userId: string, today: string): string {
    "message_count:" + userId + ":" + today
  }

  /** The counter as INCR sees it: an absent key counts as 0. */
  function CountAt(strings: map<string, Value>, key: string): int {
    if key in strings && strings[key].Int? then strings[key].i else 0
  }

  /** Counts one more message for today and says whether it is still within the quota. The
      counter grows on every call, rejected ones included; the expiry is set only when the
      counter is first created. A counter that holds a non-integer makes INCR fail. */
  method CheckMessageQuota(db: Store, userId: string, today: string) returns (r: Result<bool>)
    modifies db
    ensures var key := QuotaKey(userId, today);
      key in old(db.strings) && !old(db.strings[key]).Int? ==> r.Err? && db.Snap() == old(db.Snap())
    ensures var key := QuotaKey(userId, today);
      !(key in old(db.strings) && !old(db.strings[key]).Int?) ==>
        var count := old(CountAt(db.strings, key)) + 1;
        && r == Ok(count <= DailyLimit)
        && db.strings == old(db.strings)[key := Int(count)]
        && db.expiries == (if count == 1 then old(db.expiries)[key := DaySeconds] else old(db.expiries))
        && db.hashes == old(db.hashes) && db.sets == old(db.sets) && db.lists == old(db.lists)
  {
    var key := QuotaKey(userId, today);
    var count := db.Incr(key);
    if count.Err? {
      return Err(count.message);
    }
    if count.value == 1 {
      db.Expire(key, DaySeconds);
    }
    r := Ok(count.value <= DailyLimit);
  }

  /** How many of `n` further calls are let through when the counter stands at `count`. */
  function AllowedCalls(count: int, n: nat): (allowed: nat)
    decreases n
    ensures allowed <= n
  {
    if n == 0 then 0
    else (if count + 1 <= DailyLimit then 1 else 0) + AllowedCalls(count + 1, n - 1)
  }

  /** From a counter at `count`, the calls let through are those that bring it up to the
      limit and no more. */
  lemma {:induction false} AllowedCallsUpToLimit(count: nat, n: nat)
    decreases n
    ensures AllowedCalls(count, n) == if count >= DailyLimit then 0
                                      else if count + n <= DailyLimit then n else DailyLimit - count
  {
    if n > 0 {
      AllowedCallsUpToLimit(count + 1, n - 1);
    }
  }

  /** Exactly the first ten messages of a day pass. */
  lemma FirstTenPass(n: nat)
    ensures AllowedCalls(0, n) == if n <= DailyLimit then n else DailyLimit
  {
    AllowedCallsUpToLimit(0, n);
  }

  /** The prompt schema: `text` must be a string of 1 to 500 characters. A failure carries
      the message of the schema's issue. */
  function ValidatePrompt(body: Value): (r: Result<string>)
    ensures r.Ok? <==> body.Record? && "text" in body.fields && body.fields["text"].Str?
                       && 1 <= |body.fields["text"].s| <= 500
    ensures r.Ok? ==> r.value == body.fields["text"].s
  {
    if !body.Record? then Err("Expected object")
    else if "text" !in body.fields then Err("Required")
    else if !body.fields["text"].Str? then Err("Expected string")
    else if |body.fields["text"].s| < 1 then Err("String must contain at least 1 character(s)")
    else if |body.fields["text"].s| > 500 then Err("Prompt must be between 1 and 500 characters.")
    else Ok(body.fields["text"].s)
  }

  /** An HTTP reply: its status, its body, and whether it is sent as JSON. */
  datatype Reply = Reply(status: int, body: Value, json: bool)

  /** The route. `body` is `None` when the request is not JSON; `generate` answers `None`
      when the model call fails. The checks run in a fixed order: schema (400), sign-in
      (401), quota (429), then the model (200, or 500 on any failure). Only a signed-in
      caller with a valid prompt touches the counter. */
  method Post(db: Store, body: Option<Value>, userId: Option<string>, today: string,
              anonymize: string -> string, generate: string -> Option<string>, messageId: string)
    returns (reply: Reply)
    modifies db
    ensures body.None? ==> reply == Reply(500, Record(map["error" := Str("Failed to process prompt")]), true)
    ensures body.None? || ValidatePrompt(body.value).Err? || userId.None? || userId.value == "" ==>
      db.Snap() == old(db.Snap())
    ensures body.Some? && ValidatePrompt(body.value).Err? ==>
      reply == Reply(400, Record(map["errors" := Str(ValidatePrompt(body.value).message)]), true)
    ensures body.Some? && ValidatePrompt(body.value).Ok? && (userId.None? || userId.value == "") ==>
      reply == Reply(401, Str("Unauthorized"), false)
    ensures body.Some? && ValidatePrompt(body.value).Ok? && userId.Some? && userId.value != "" ==>
      var key := QuotaKey(userId.value, today);
      var count := old(CountAt(db.strings, key)) + 1;
      if key in old(db.strings) && !old(db.strings[key]).Int? then
        reply == Reply(500, Record(map["error" := Str("Failed to process prompt")]), true)
        && db.Snap() == old(db.Snap())
      else
        && db.strings == old(db.strings)[key := Int(count)]
        && db.expiries == (if count == 1 then old(db.expiries)[key := DaySeconds] else old(db.expiries))
        && db.hashes == old(db.hashes) && db.sets == old(db.sets) && db.lists == old(db.lists)
        && (count > DailyLimit ==> reply == Reply(429, Record(map["error" := Str(QuotaMessage)]), true))
        && (count <= DailyLimit ==>
              var answer := generate(anonymize(ValidatePrompt(body.value).value));
              reply == if answer.None? then Reply(500, Record(map["error" := Str("Failed to process prompt")]), true)
                       else Reply(200, Record(map["message" := Record(map["id" := Str(messageId),
                                  "role" := Str("assistant"), "content" := Str(answer.value)])]), true))
  {
    var failure := Reply(500, Record(map["error" := Str("Failed to process prompt")]), true);
    if body.None? {
      return failure;
    }
    var prompt := ValidatePrompt(body.value);
    if prompt.Err? {
      return Reply(400, Record(map["errors" := Str(prompt.message)]), true);
    }
    if userId.None? || userId.value == "" {
      return Reply(401, Str("Unauthorized"), false);
    }
    var quota := CheckMessageQuota(db, userId.value, today);
    if quota.Err? {
      return failure;
    }
    if !quota.value {
      return Reply(429, Record(map["error" := Str(QuotaMessage)]), true);
    }
    var answer := generate(anonymize(prompt.value));
    if answer.None? {
      return failure;
    }
    reply := Reply(200, Record(map["message" := Record(map["id" := Str(messageId), "role" := Str("assistant"),
                                                           "content" := Str(answer.value)])]), true);
  }
}
