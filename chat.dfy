/**
 * The `/chat` handler: answer from the cache when the question is live there; otherwise read
 * and trim the shared conversation context, ask the model with one of two prompts, cache the
 * answer for 600 seconds and the extended context for 3600 seconds, and turn any failure into
 * the one fixed error reply.
 */
module ChatEndpoint {
  import opened Wrappers
  import opened TtlStore
  import opened PyText
  import opened ContextWindow

  /** The one key under which the conversation transcript lives, beside the cached answers. */
  const ContextKey: string := "context"
  const AnswerTtl: int := 600
  const ContextTtl: int := 3600

  const OkStatus: int := 200
  const ErrorStatus: int := 500
  const ErrorMessage: string := "An error occurred"

  /** The two prompt templates: the question alone, or the trimmed history and the question. */
  datatype Prompt = QuestionOnly(question: string) | WithContext(context: string, question: string)

  /** The language model as seen by one request: the text it returns, or None if the call raised. */
  type Model = Prompt -> Option<string>

  /** The JSON body `{"answer": …}` or `{"error": …}` and the HTTP status it is sent with. */
  datatype Body = AnswerBody(answer: string) | ErrorBody(error: string)
  datatype Response = Response(status: int, body: Body)

  /** The store round trips a request can make, in the order the handler makes them. */
  datatype StoreCall = CheckAnswer | ReadAnswer | ReadContext | WriteAnswer | WriteContext

  /** What the body of the handler's `try` block yields: its value or failure, the store it leaves, the prompt it sent. */
  datatype Run = Run(result: Result<string>, entries: Keyspace, prompt: Option<Prompt>)

  /** What a whole request yields: the reply, the store it leaves, the prompt it sent. */
  datatype Outcome = Outcome(response: Response, entries: Keyspace, prompt: Option<Prompt>)

  function Answered(answer: string): Response {
    Response(OkStatus, AnswerBody(answer))
  }

  function ErrorResponse(): Response {
    Response(ErrorStatus, ErrorBody(ErrorMessage))
  }

  /** The `except` clause: every failure, whatever its cause, becomes the same 500 reply. */
  function ToResponse(r: Result<string>): (resp: Response)
    ensures resp.status == OkStatus <==> r.Ok?
    ensures r.Ok? ==> resp.body == AnswerBody(r.value)
    ensures r.Err? ==> resp.status == 500 && resp.body == ErrorBody("An error occurred")
  {
    match r
    case Ok(answer) => Answered(answer)
    case Err(_) => ErrorResponse()
  }

  /** `cache.get("context") or ""`: an absent, expired or empty slot all read as `""`. */
  function ContextOrEmpty(stored: Option<string>): (context: string)
    ensures context == "" <==> stored.None? || stored.value == ""
    ensures stored.Some? ==> context == stored.value
  {
    match stored
    case None => ""
    case Some(v) => v
  }

  /**
   * The prompt for a raw context: the question-only template exactly when the raw context is
   * `""`, otherwise the history template with the trimmed context, which has at most 10 lines.
   */
  function PromptFor(context: string, question: string): (p: Prompt)
    ensures p.question == question
    ensures p.QuestionOnly? <==> context == ""
    ensures p.WithContext? ==> p.context == TrimContext(context)
    ensures p.WithContext? ==> |Split(p.context)| <= MaxContextLines
  {
    if context == "" then QuestionOnly(question)
    else
      TrimBound(context);
      WithContext(TrimContext(context), question)
  }

  /** The body of the `try` block, as a function of the store, the clock, the question, the model and which round trips fail. */
  function Attempt(m: Keyspace, now: int, question: string, model: Model, outages: set<StoreCall>): Run {
    if CheckAnswer in outages then Run(Err(CacheUnavailable), m, None)
    else if IsLive(m, question, now) then
      if ReadAnswer in outages then Run(Err(CacheUnavailable), m, None)
      else Run(Ok(m[question].value), m, None)
    else if ReadContext in outages then Run(Err(CacheUnavailable), m, None)
    else
      var context := ContextOrEmpty(Lookup(m, ContextKey, now));
      var prompt := PromptFor(context, question);
      match model(prompt)
      case None => Run(Err(ModelInvocationFailure), m, Some(prompt))
      case Some(answer) =>
        if WriteAnswer in outages then Run(Err(CacheUnavailable), m, Some(prompt))
        else
          var cached := Put(m, question, AnswerTtl, answer, now);
          if WriteContext in outages then Run(Err(CacheUnavailable), cached, Some(prompt))
          else
            var transcript := NewContext(TrimContext(context), question, answer);
            Run(Ok(answer), Put(cached, ContextKey, ContextTtl, transcript, now), Some(prompt))
  }

  /** One whole request: the `try` block with its failures mapped by the `except` clause. */
  function Serve(m: Keyspace, now: int, question: string, model: Model, outages: set<StoreCall>): Outcome {
    var run := Attempt(m, now, question, model, outages);
    Outcome(ToResponse(run.result), run.entries, run.prompt)
  }

  /** The `try` block, as the handler runs it against the store object. */
  method Handle(cache: Cache, question: string, model: Model, outages: set<StoreCall>)
    returns (r: Result<string>, ghost prompt: Option<Prompt>)
    modifies cache`entries
    ensures Run(r, cache.entries, prompt) == Attempt(old(cache.entries), cache.now, question, model, outages)
  {
    prompt := None;
    var hit := cache.Exists(question, CheckAnswer in outages);
    if hit.Err? {
      return Err(hit.failure), None;
    }
    if hit.value {
      var cachedAnswer := cache.Get(question, ReadAnswer in outages);
      if cachedAnswer.Err? {
        return Err(cachedAnswer.failure), None;
      }
      return Ok(cachedAnswer.value.value), None;
    }
    var stored := cache.Get(ContextKey, ReadContext in outages);
    if stored.Err? {
      return Err(stored.failure), None;
    }
    var context := ContextOrEmpty(stored.value);
    var trimmed := context;
    var p: Prompt;
    if context == "" {
      p := QuestionOnly(question);
    } else {
      trimmed := TrimContext(context);
      p := WithContext(trimmed, question);
    }
    prompt := Some(p);
    var reply := model(p);
    if reply.None? {
      return Err(ModelInvocationFailure), prompt;
    }
    var answer := reply.value;
    var written := cache.SetEx(question, AnswerTtl, answer, WriteAnswer in outages);
    if written.Err? {
      return Err(written.failure), prompt;
    }
    written := cache.SetEx(ContextKey, ContextTtl, NewContext(trimmed, question, answer), WriteContext in outages);
    if written.Err? {
      return Err(written.failure), prompt;
    }
    r := Ok(answer);
  }

  /** The `/chat` endpoint: runs the `try` block and maps any failure to the fixed error reply. */
  method Chat(cache: Cache, question: string, model: Model, outages: set<StoreCall>)
    returns (response: Response, ghost prompt: Option<Prompt>)
    modifies cache`entries
    ensures Outcome(response, cache.entries, prompt) == Serve(old(cache.entries), cache.now, question, model, outages)
  {
    var r;
    r, prompt := Handle(cache, question, model, outages);
    response := ToResponse(r);
  }

  /**
   * Three requests against a fresh store, as a client sees them: the first "Hello" is answered
   * by the model with the question-only prompt, the same question straight after is served from
   * the cache whatever the model would now say, and 600 seconds later, the answer having
   * expired while the transcript has not, it goes to the model again with the history prompt.
   */
  method HelloTwiceThenExpire(model: Model, answer: string, later: Model)
    returns (first: Response, second: Response, third: Response)
    requires model(QuestionOnly("Hello")) == Some(answer)
    ensures first == Answered(answer) && second == Answered(answer)
    ensures var p := PromptFor(NewContext("", "Hello", answer), "Hello");
            && p.WithContext?
            && third == (if later(p).Some? then Answered(later(p).value) else ErrorResponse())
  {
    var cache := new Cache(map[], 0);
    ghost var prompt;
    first, prompt := Chat(cache, "Hello", model, {});
    assert prompt == Some(QuestionOnly("Hello")) by {
      MissPrompt(map[], 0, "Hello", model, {});
    }
    ghost var m := cache.entries;
    assert m == Put(Put(map[], "Hello", AnswerTtl, answer, 0), ContextKey, ContextTtl,
                    NewContext("", "Hello", answer), 0) by {
      CacheMissSuccess(map[], 0, "Hello", model, {}, answer);
    }
    second, prompt := Chat(cache, "Hello", later, {});
    assert second == Answered(answer) by {
      SecondAskHits(map[], 0, "Hello", model, answer, 0, later, {});
    }
    cache.Advance(AnswerTtl);
    assert !IsLive(m, "Hello", AnswerTtl) && Lookup(m, ContextKey, AnswerTtl) == Some(NewContext("", "Hello", answer));
    third, prompt := Chat(cache, "Hello", later, {});
  }

  // ---------------------------------------------------------------------------------------
  // Properties of one request

  /**
   * A live question is answered from the cache: the model is never asked and the store is
   * left as it was; the reply is the stored answer unless one of the two reads fails.
   */
  lemma CacheHit(m: Keyspace, now: int, question: string, model: Model, outages: set<StoreCall>)
    requires IsLive(m, question, now)
    ensures var o := Serve(m, now, question, model, outages);
            && o.prompt == None
            && o.entries == m
            && (o.response == Answered(m[question].value) <==> CheckAnswer !in outages && ReadAnswer !in outages)
            && (o.response != Answered(m[question].value) ==> o.response == ErrorResponse())
  {
  }

  /**
   * A miss where nothing fails: the reply is the model's answer, the answer is cached under the
   * question for 600 seconds, the extended transcript under "context" for 3600 seconds, and
   * every other key reads as before at every instant.
   */
  lemma CacheMissSuccess(m: Keyspace, now: int, question: string, model: Model, outages: set<StoreCall>, answer: string)
    requires !IsLive(m, question, now)
    requires outages <= {ReadAnswer}
    requires model(PromptFor(ContextOrEmpty(Lookup(m, ContextKey, now)), question)) == Some(answer)
    ensures var context := ContextOrEmpty(Lookup(m, ContextKey, now));
            var o := Serve(m, now, question, model, outages);
            && o.response == Answered(answer)
            && o.prompt == Some(PromptFor(context, question))
            && o.entries == Put(Put(m, question, AnswerTtl, answer, now), ContextKey, ContextTtl,
                                NewContext(TrimContext(context), question, answer), now)
            && (question != ContextKey ==> o.entries[question] == Entry(answer, now + 600))
            && o.entries[ContextKey] == Entry(NewContext(TrimContext(context), question, answer), now + 3600)
            && (forall k, t :: k != question && k != ContextKey ==> Lookup(o.entries, k, t) == Lookup(m, k, t))
  {
    var context := ContextOrEmpty(Lookup(m, ContextKey, now));
    var cached := Put(m, question, AnswerTtl, answer, now);
    var stored := Put(cached, ContextKey, ContextTtl, NewContext(TrimContext(context), question, answer), now);
    var o := Serve(m, now, question, model, outages);
    assert o == Outcome(Answered(answer), stored, Some(PromptFor(context, question))) by {
      assert Attempt(m, now, question, model, outages) == Run(Ok(answer), stored, Some(PromptFor(context, question)));
    }
    forall k, t | k != question && k != ContextKey
      ensures Lookup(stored, k, t) == Lookup(m, k, t)
    {
      assert Lookup(stored, k, t) == Lookup(cached, k, t);
    }
    assert question != ContextKey ==> stored[question] == cached[question];
  }

  /**
   * On a miss that reaches the model, the question-only prompt is sent exactly when the raw
   * context is `""` (absent, expired or empty); any other context, whitespace alone included,
   * sends the history prompt with the trimmed context.
   */
  lemma ModeChoice(m: Keyspace, now: int, question: string, model: Model, outages: set<StoreCall>)
    requires !IsLive(m, question, now) && CheckAnswer !in outages && ReadContext !in outages
    ensures var context := ContextOrEmpty(Lookup(m, ContextKey, now));
            var o := Serve(m, now, question, model, outages);
            && (o.prompt == Some(QuestionOnly(question)) <==> context == "")
            && (context != "" ==> o.prompt == Some(WithContext(TrimContext(context), question)))
  {
    MissPrompt(m, now, question, model, outages);
  }

  /** A miss that gets past both reads always asks the model, with the prompt for the raw context. */
  lemma MissPrompt(m: Keyspace, now: int, question: string, model: Model, outages: set<StoreCall>)
    requires !IsLive(m, question, now) && CheckAnswer !in outages && ReadContext !in outages
    ensures Serve(m, now, question, model, outages).prompt
         == Some(PromptFor(ContextOrEmpty(Lookup(m, ContextKey, now)), question))
  {
    var prompt := PromptFor(ContextOrEmpty(Lookup(m, ContextKey, now)), question);
    assert Attempt(m, now, question, model, outages).prompt == Some(prompt);
  }

  /** Whatever the store held, the model is never shown more than 10 lines of history. */
  lemma ModelSeesBoundedContext(m: Keyspace, now: int, question: string, model: Model, outages: set<StoreCall>)
    ensures var o := Serve(m, now, question, model, outages);
            o.prompt.Some? && o.prompt.value.WithContext? ==> |Split(o.prompt.value.context)| <= MaxContextLines
  {
    if CheckAnswer in outages || IsLive(m, question, now) || ReadContext in outages {
      assert Attempt(m, now, question, model, outages).prompt == None;
    } else {
      MissPrompt(m, now, question, model, outages);
    }
  }

  /** A model that raises fails the request, and since both writes come after it, the store is untouched. */
  lemma ModelFailure(m: Keyspace, now: int, question: string, model: Model, outages: set<StoreCall>)
    requires !IsLive(m, question, now) && CheckAnswer !in outages && ReadContext !in outages
    requires model(PromptFor(ContextOrEmpty(Lookup(m, ContextKey, now)), question)).None?
    ensures var o := Serve(m, now, question, model, outages);
            o.response == ErrorResponse() && o.entries == m && o.prompt.Some?
  {
  }

  /** A failed answer write fails the request before the context is touched: the store is unchanged. */
  lemma AnswerWriteFailure(m: Keyspace, now: int, question: string, model: Model, outages: set<StoreCall>)
    requires !IsLive(m, question, now) && CheckAnswer !in outages && ReadContext !in outages
    requires WriteAnswer in outages
    ensures var o := Serve(m, now, question, model, outages);
            o.response == ErrorResponse() && o.entries == m
  {
  }

  /**
   * A failed context write fails the request, yet the answer stays cached: the store differs
   * from the old one by the answer entry alone.
   */
  lemma ContextWriteFailure(m: Keyspace, now: int, question: string, model: Model, outages: set<StoreCall>, answer: string)
    requires !IsLive(m, question, now)
    requires CheckAnswer !in outages && ReadContext !in outages && WriteAnswer !in outages
    requires WriteContext in outages
    requires model(PromptFor(ContextOrEmpty(Lookup(m, ContextKey, now)), question)) == Some(answer)
    ensures var o := Serve(m, now, question, model, outages);
            o.response == ErrorResponse() && o.entries == Put(m, question, AnswerTtl, answer, now)
  {
  }

  /** A failed read of the transcript on a miss fails the request before the model is asked: no change. */
  lemma ContextReadFailure(m: Keyspace, now: int, question: string, model: Model, outages: set<StoreCall>)
    requires !IsLive(m, question, now) && CheckAnswer !in outages && ReadContext in outages
    ensures Serve(m, now, question, model, outages) == Outcome(ErrorResponse(), m, None)
  {
  }

  /** A failed existence check fails the request at once: no model call, no change. */
  lemma CheckFailure(m: Keyspace, now: int, question: string, model: Model, outages: set<StoreCall>)
    requires CheckAnswer in outages
    ensures Serve(m, now, question, model, outages) == Outcome(ErrorResponse(), m, None)
  {
  }

  /** Every reply is either a 200 carrying an answer or exactly the fixed 500 error reply. */
  lemma RepliesAreAnswersOrTheError(m: Keyspace, now: int, question: string, model: Model, outages: set<StoreCall>)
    ensures var resp := Serve(m, now, question, model, outages).response;
            (resp.status == OkStatus && resp.body.AnswerBody?) || resp == ErrorResponse()
  {
  }

  /**
   * The question "context" shares its key with the transcript: while the transcript is live it
   * is a cache hit whose answer is the transcript itself.
   */
  lemma ContextQuestionHitsTranscript(m: Keyspace, now: int, model: Model, outages: set<StoreCall>)
    requires IsLive(m, ContextKey, now) && CheckAnswer !in outages && ReadAnswer !in outages
    ensures Serve(m, now, ContextKey, model, outages) == Outcome(Answered(m[ContextKey].value), m, None)
  {
  }

  /** On a miss for the question "context", the transcript write overwrites the answer just cached. */
  lemma ContextQuestionAnswerOverwritten(m: Keyspace, now: int, model: Model, outages: set<StoreCall>, answer: string)
    requires !IsLive(m, ContextKey, now) && outages <= {ReadAnswer}
    requires model(PromptFor(ContextOrEmpty(Lookup(m, ContextKey, now)), ContextKey)) == Some(answer)
    ensures var context := ContextOrEmpty(Lookup(m, ContextKey, now));
            var o := Serve(m, now, ContextKey, model, outages);
            && o.entries[ContextKey] == Entry(NewContext(TrimContext(context), ContextKey, answer), now + ContextTtl)
            && o.entries[ContextKey].value != answer
  {
    var context := ContextOrEmpty(Lookup(m, ContextKey, now));
    var transcript := NewContext(TrimContext(context), ContextKey, answer);
    assert |transcript| > |answer|;
  }

  // ---------------------------------------------------------------------------------------
  // Properties across requests

  /**
   * After a successful miss for a question other than "context", asking it again at any time
   * before the 600 seconds are up is a hit on the same answer: whatever the model would say, it
   * is not asked, and the store does not change.
   */
  lemma SecondAskHits(m: Keyspace, now: int, question: string, model: Model, answer: string,
                      later: int, model2: Model, outages2: set<StoreCall>)
    requires !IsLive(m, question, now) && question != ContextKey
    requires model(PromptFor(ContextOrEmpty(Lookup(m, ContextKey, now)), question)) == Some(answer)
    requires now <= later < now + AnswerTtl && CheckAnswer !in outages2 && ReadAnswer !in outages2
    ensures var m' := Serve(m, now, question, model, {}).entries;
            Serve(m', later, question, model2, outages2) == Outcome(Answered(answer), m', None)
  {
    CacheMissSuccess(m, now, question, model, {}, answer);
  }

  /**
   * A cached answer written at `now` is no longer a hit from `now + 600` on: the question
   * reaches the model again (or, for the question "context", the transcript's own expiry rules).
   */
  lemma AnswerExpires(m: Keyspace, now: int, question: string, model: Model, answer: string,
                      later: int, model2: Model, outages2: set<StoreCall>)
    requires !IsLive(m, question, now) && question != ContextKey
    requires model(PromptFor(ContextOrEmpty(Lookup(m, ContextKey, now)), question)) == Some(answer)
    requires later >= now + AnswerTtl && CheckAnswer !in outages2 && ReadContext !in outages2
    ensures var m' := Serve(m, now, question, model, {}).entries;
            Serve(m', later, question, model2, outages2).prompt.Some?
  {
    var m' := Serve(m, now, question, model, {}).entries;
    assert !IsLive(m', question, later) by {
      var context := ContextOrEmpty(Lookup(m, ContextKey, now));
      assert m' == Put(Put(m, question, AnswerTtl, answer, now), ContextKey, ContextTtl,
                       NewContext(TrimContext(context), question, answer), now);
      assert m'[question] == Entry(answer, now + AnswerTtl);
    }
    ModeChoice(m', later, question, model2, outages2);
  }

  /**
   * First exchange: with no live context, the question-only prompt is sent, the transcript is
   * stored with a leading newline, and the next request's trimmed context is the exchange alone.
   */
  lemma EmptyContextScenario(m: Keyspace, now: int, question: string, model: Model, answer: string)
    requires !IsLive(m, question, now) && !IsLive(m, ContextKey, now) && question != ContextKey
    requires model(QuestionOnly(question)) == Some(answer)
    requires NoNewline(question) && NoNewline(answer) && answer != "" && !IsSpace(answer[|answer| - 1])
    ensures var o := Serve(m, now, question, model, {});
            && o.prompt == Some(QuestionOnly(question))
            && o.response == Answered(answer)
            && o.entries[question] == Entry(answer, now + AnswerTtl)
            && o.entries[ContextKey].value == [Newline] + Exchange(question, answer)
            && TrimContext(ContextOrEmpty(Lookup(o.entries, ContextKey, now))) == Exchange(question, answer)
  {
    CacheMissSuccess(m, now, question, model, {}, answer);
    FirstExchange(question, answer);
  }

  /**
   * A short, already-stripped context (at most 10 lines) reaches the model unchanged, and the
   * new transcript is that context with the exchange appended on a new line.
   */
  lemma ShortContextScenario(m: Keyspace, now: int, question: string, model: Model, answer: string)
    requires !IsLive(m, question, now) && question != ContextKey && IsLive(m, ContextKey, now)
    requires var c := m[ContextKey].value;
             c != "" && !IsSpace(c[0]) && !IsSpace(c[|c| - 1]) && |Split(c)| <= MaxContextLines
    requires model(WithContext(m[ContextKey].value, question)) == Some(answer)
    ensures var c := m[ContextKey].value;
            var o := Serve(m, now, question, model, {});
            && o.prompt == Some(WithContext(c, question))
            && o.response == Answered(answer)
            && o.entries[ContextKey] == Entry(c + [Newline] + Exchange(question, answer), now + ContextTtl)
  {
    var c := m[ContextKey].value;
    StripTrimmed(c);
    TrimShortContext(c);
    CacheMissSuccess(m, now, question, model, {}, answer);
  }

  // ---------------------------------------------------------------------------------------
  // The transcript bound over any number of requests

  /** The stored transcript, live or not, has at most one exchange more than the window. */
  predicate BoundedTranscript(m: Keyspace) {
    ContextKey in m ==> |Split(m[ContextKey].value)| <= MaxContextLines + 2
  }

  /** A model whose answers are single lines. */
  ghost predicate SingleLineModel(model: Model) {
    forall p :: model(p).Some? ==> NoNewline(model(p).value)
  }

  /** One request with a single-line question and answer keeps the transcript bound. */
  lemma ServeKeepsTranscriptBound(m: Keyspace, now: int, question: string, model: Model, outages: set<StoreCall>)
    requires BoundedTranscript(m) && NoNewline(question) && SingleLineModel(model)
    ensures BoundedTranscript(Serve(m, now, question, model, outages).entries)
  {
    if CheckAnswer in outages || IsLive(m, question, now) || ReadContext in outages {
      assert Serve(m, now, question, model, outages).entries == m;
      return;
    }
    var context := ContextOrEmpty(Lookup(m, ContextKey, now));
    var prompt := PromptFor(context, question);
    if model(prompt).None? || WriteAnswer in outages {
      assert Serve(m, now, question, model, outages).entries == m;
      return;
    }
    var answer := model(prompt).value;
    assert NoNewline(answer);
    var cached := Put(m, question, AnswerTtl, answer, now);
    if WriteContext in outages {
      assert Serve(m, now, question, model, outages).entries == cached;
      if question == ContextKey {
        SplitOfLine(answer);
      }
    } else {
      var transcript := NewContext(TrimContext(context), question, answer);
      assert Serve(m, now, question, model, outages).entries == Put(cached, ContextKey, ContextTtl, transcript, now);
      StoredContextBound(context, question, answer);
    }
  }

  /** One request of a sequence: when it arrives, what it asks, what the model does, which store calls fail. */
  datatype Request = Request(at: int, question: string, model: Model, outages: set<StoreCall>)

  /** The store after serving `requests` one at a time, in order. */
  function Replay(m: Keyspace, requests: seq<Request>): Keyspace
    decreases |requests|
  {
    if requests == [] then m
    else
      var r := requests[0];
      Replay(Serve(m, r.at, r.question, r.model, r.outages).entries, requests[1..])
  }

  /**
   * However many exchanges come one after another, the stored transcript never grows beyond
   * 12 lines when every question and answer is a single line (and the model, by
   * `ModelSeesBoundedContext`, never sees more than 10 of them).
   */
  lemma {:induction false} ReplayKeepsTranscriptBound(m: Keyspace, requests: seq<Request>)
    requires BoundedTranscript(m)
    requires forall i :: 0 <= i < |requests| ==> NoNewline(requests[i].question) && SingleLineModel(requests[i].model)
    ensures BoundedTranscript(Replay(m, requests))
    decreases |requests|
  {
    if requests != [] {
      var r := requests[0];
      ServeKeepsTranscriptBound(m, r.at, r.question, r.model, r.outages);
      ReplayKeepsTranscriptBound(Serve(m, r.at, r.question, r.model, r.outages).entries, requests[1..]);
    }
  }

  /** A fresh store satisfies the bound, so every store reached from it by requests does. */
  lemma FreshStoreKeepsTranscriptBound(requests: seq<Request>)
    requires forall i :: 0 <= i < |requests| ==> NoNewline(requests[i].question) && SingleLineModel(requests[i].model)
    ensures BoundedTranscript(Replay(map[], requests))
  {
    ReplayKeepsTranscriptBound(map[], requests);
  }
}
