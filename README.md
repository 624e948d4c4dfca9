# Cache-and-context policy of the `/chat` handler

This project models the one piece of logic in a small FastAPI service. The service answers
questions with a local language model. It keeps the answers and a rolling conversation
transcript in one Redis instance, and each entry there has an expiry time. The model covers
the `/chat` handler (`chat` in `main.py`) and is built in four layers over a small file of shared types:

- `wrappers.dfy` (module `Wrappers`) holds `Option`, `Result` and the `Failure` kinds a request
  can end in: the store being unreachable or the model call raising.

- `ttl_store.dfy` (module `TtlStore`) models the Redis instance as the class `Cache`. The
  class holds a keyspace `map<string, Entry>` and a logical clock `now` in seconds. An
  `Entry` is a value with an absolute expiry time. `exists` and `get` see only entries whose
  expiry is after `now`. `setex(key, ttl, value)` replaces the entry and sets its expiry to
  `now + ttl`. Each round trip takes an `outage` flag saying whether that call fails with a
  connection error. The pure functions `IsLive`, `Lookup` and `Put` state the same semantics
  on plain maps.
- `py_text.dfy` (module `PyText`) models the three Python string operations the trimming uses.
  They are `str.strip()` (with Python's whitespace set), `str.split("\n")` and
  `"\n".join(...)`. Each comes with its defining properties, including both split/join round
  trips.
- `context_window.dfy` (module `ContextWindow`) models trimming. `TrimContext` gives back a
  raw context of exactly `""` unchanged. Any other context is stripped, split, cut to its last
  10 lines and joined again. `NewContext` appends `"\nUser: q\nAI: r"`, the transcript the
  handler writes back.
- `chat.dfy` (module `ChatEndpoint`) models the handler. `Attempt` is the body of the handler's
  `try` block as a function. `Serve` adds the `except` mapping. The methods `Handle` and `Chat`
  run the same steps against a `Cache` object and are proved equal to `Attempt` and `Serve`.
  The order of steps is:
  1. a cache hit returns the stored answer;
  2. otherwise the handler reads the `"context"` key (absent reads as `""`);
  3. it picks the question-only prompt when that raw context is `""`, and otherwise the history
     prompt with the trimmed context;
  4. it asks the model;
  5. it writes the answer with TTL 600, then the new transcript under `"context"` with TTL 3600.

  Any failure becomes status 500 with body `{"error": "An error occurred"}`. The model is a
  parameter `Prompt -> Option<string>` given to each request, where `None` means the call
  raised. Which store round trips fail is a parameter `set<StoreCall>`.

Answers and the transcript share one keyspace. So the question `"context"` hits whenever the
transcript is live, and on a miss its cached answer is overwritten by the transcript.

Three details of `main.py` shape the model:

- The prompt mode is chosen by whether the raw stored context is `""`, not by whether the
  trimmed context is empty. A whitespace-only context therefore takes the history prompt, with an empty
  history (`TrimWhitespaceOnly`, `ModeChoice`).
- After the first exchange the stored transcript begins with a newline (`"\nUser: …"`). The next request's `strip()` removes it (`FirstExchange`,
  `EmptyContextScenario`).
- A context of at most 10 lines is not passed through untouched: it is stripped
  (`TrimShortContext`).

## Model

| member | source | states |
|---|---|---|
| `TtlStore.Lookup` | main.py:158-166 | `get`/`exists` see a value exactly when the key is present and its expiry is after `now`, and then it is the stored value |
| `TtlStore.Put` | main.py:184-186 | after `setex` the key reads the new value at every instant before `now + ttl` and nothing from then on; every other key reads as before at every instant |
| `TtlStore.PutPut` | main.py:184-186 | a second `setex` of the same key wholly replaces the first, so the transcript write overwrites an answer cached under `"context"` |
| `TtlStore.PutCommutes` | main.py:184-186 | writes to two different keys give the same store in either order, so the write order matters only when the question is `"context"` |
| `TtlStore.IsLive` | main.py:158 | an entry is live while its expiry is after `now`; its properties are stated through `Lookup`, `Put` and `Cache.Exists` |
| `TtlStore.Cache.constructor` | main.py:127 | a client attached to a running server sees the keyspace the server already holds, at the given clock reading |
| `TtlStore.Cache.Exists` | main.py:158 | with the link up, reports whether the key holds a live entry; with it down, fails with `CacheUnavailable` |
| `TtlStore.Cache.Get` | main.py:159-166 | with the link up, returns the live value or nothing; with it down, fails |
| `TtlStore.Cache.SetEx` | main.py:184-186 | with the link up, the keyspace becomes `Put(old, key, ttl, value, now)`; a failed call is taken to have had no effect on the server |
| `TtlStore.Cache.Advance` | main.py:184-186 | the clock moves forward and stored entries stay as they are, so they expire by time alone |
| `PyText.Strip` | main.py:171 | `strip()` keeps a slice of the input with only whitespace outside it; the slice is empty or has a non-space at both ends |
| `PyText.StripUnique` | main.py:171 | any slice with those properties is the one `strip()` returns |
| `PyText.StripEmpty` | main.py:171 | `strip()` returns `""` exactly for all-whitespace strings |
| `PyText.StripTrimmed` | main.py:171 | a string with a non-space at both ends strips to itself |
| `PyText.StripLeadingSpace` | main.py:171 | a leading whitespace character, such as a newline, does not change the result of `strip()` |
| `PyText.StripCount` | main.py:171 | stripping never adds newlines |
| `PyText.Split` | main.py:171 | `split("\n")` returns at least one piece, no piece holds a newline, and joining the pieces with `"\n"` gives back the input |
| `PyText.SplitJoin` | main.py:171-178 | splitting the `"\n"`-join of newline-free pieces gives back exactly those pieces |
| `PyText.SplitOfLine` | main.py:171 | a string without a newline splits into itself |
| `PyText.Join` | main.py:178 | `"\n".join(parts)`: the pieces with one newline between neighbours; `Split`, `SplitJoin` and `JoinAppend` state its round trips with `split` |
| `PyText.JoinAppend` | main.py:178 | joining two non-empty piece lists puts exactly one separator between their joins |
| `PyText.SplitAppend` | main.py:171 | `split` of `a + "\n" + b` is `split(a)` followed by `split(b)` |
| `PyText.SplitCount` | main.py:171 | `split("\n")` returns one more piece than there are newlines |
| `ContextWindow.TrimContext` | main.py:166-178 | the trimming step: `""` is kept, anything else is stripped, split, cut to its last 10 lines and joined; its properties are `TrimKeepsLastLines`, `TrimBound`, `TrimShortContext` and `TrimWhitespaceOnly` |
| `ContextWindow.LastLines` | main.py:174-175 | the slice `[-10:]` taken when there are more than 10 lines: a suffix of length `min(10, n)` |
| `ContextWindow.TrimKeepsLastLines` | main.py:166-178 | the trimmed context's lines are exactly the last `min(10, n)` of the `n` lines of the stripped stored context, in their original order |
| `ContextWindow.TrimBound` | main.py:173-175 | whatever was stored, the trimmed context has at most 10 lines |
| `ContextWindow.TrimShortContext` | main.py:171-178 | a stored context of at most 10 lines is only stripped, never shortened |
| `ContextWindow.TrimWhitespaceOnly` | main.py:166-178 | a whitespace-only context trims to `""` |
| `ContextWindow.Exchange` | main.py:185 | the two transcript lines `User: q` and `AI: r` of one exchange; `ExchangeLines` states their shape |
| `ContextWindow.NewContext` | main.py:185 | the transcript written back: the trimmed context, a newline, the exchange; `NewContextLines`, `StoredContextBound` and `FirstExchange` state its properties |
| `ContextWindow.ExchangeLines` | main.py:185 | an exchange of a single-line question and answer is exactly the two lines `User: q` and `AI: r` |
| `ContextWindow.NewContextLines` | main.py:185 | appending such an exchange adds exactly those two lines after the trimmed context's lines |
| `ContextWindow.StoredContextBound` | main.py:171-186 | the transcript written back has at most 12 lines when question and answer are single lines |
| `ContextWindow.FirstExchange` | main.py:166-186 | for a single-line question and a single-line, non-empty answer that does not end in whitespace: with no prior context the transcript stored is `"\n" + "User: q\nAI: r"`, and trimming it on the next request gives `"User: q\nAI: r"` |
| `ChatEndpoint.ToResponse` | main.py:195-201 | success gives status 200 with `{"answer": …}`; every failure, whatever its cause, gives status 500 with `{"error": "An error occurred"}` |
| `ChatEndpoint.ContextOrEmpty` | main.py:166 | `cache.get("context") or ""` is `""` exactly when the slot is absent, expired or empty, and is the stored value otherwise |
| `ChatEndpoint.PromptFor` | main.py:167-181 | the question-only prompt exactly when the raw context is `""`; otherwise the history prompt with the trimmed context, which has at most 10 lines |
| `ChatEndpoint.Attempt` | main.py:156-195 | the `try` block as a function of the old keyspace, the clock, the model and the failing round trips; `Handle` is proved equal to it and the lemmas below state what it does |
| `ChatEndpoint.Serve` | main.py:149-201 | the whole endpoint: `Attempt` followed by the `except` mapping; `Chat` is proved equal to it and the lemmas below state what it does |
| `ChatEndpoint.Handle` | main.py:156-195 | the handler's `try` block against the store object returns, leaves and sends exactly what `Attempt` gives for the old keyspace |
| `ChatEndpoint.Chat` | main.py:149-201 | the whole endpoint against the store object yields exactly what `Serve` gives: reply, new keyspace and prompt sent |
| `ChatEndpoint.HelloTwiceThenExpire` | main.py:158-186 | on a fresh store, `"Hello"` is answered by the model, then from the cache whatever the model would now say, then, once 600 seconds have passed, by the model again with the history prompt, the reply being its new answer or the fixed error |
| `ChatEndpoint.CacheHit` | main.py:158-163 | a live question never reaches the model and leaves the store unchanged; the reply is the stored answer exactly when neither read fails, and the fixed error otherwise |
| `ChatEndpoint.CacheMissSuccess` | main.py:166-195 | for a question other than `"context"`, a miss with no failure replies with the model's answer and stores it under the question with expiry `now+600`; it stores the transcript under `"context"` with expiry `now+3600`; every other key reads as before |
| `ChatEndpoint.ModeChoice` | main.py:166-181 | on a miss, the question-only prompt is sent exactly when the raw context is `""`; any other context, whitespace-only included, sends the history prompt with the trimmed context |
| `ChatEndpoint.MissPrompt` | main.py:166-181 | a miss that gets past both reads always asks the model, with the prompt chosen for the raw context |
| `ChatEndpoint.ModelSeesBoundedContext` | main.py:171-181 | in every request the model is shown at most 10 lines of history |
| `ChatEndpoint.ModelFailure` | main.py:169-186 | a failing model call fails the request and leaves the store untouched, since both writes come after it |
| `ChatEndpoint.AnswerWriteFailure` | main.py:184-186 | a failed answer write fails the request with the store unchanged |
| `ChatEndpoint.ContextWriteFailure` | main.py:184-201 | a failed transcript write fails the request, yet the answer stays cached: the store is the old one plus the answer entry |
| `ChatEndpoint.ContextReadFailure` | main.py:166-201 | on a miss, a failed read of `"context"` gives the fixed error before the model is asked, with no change to the store |
| `ChatEndpoint.CheckFailure` | main.py:156-201 | a failed existence check gives the fixed error at once, with no model call and no change |
| `ChatEndpoint.RepliesAreAnswersOrTheError` | main.py:156-201 | every reply is a 200 with an answer body or exactly the fixed 500 error |
| `ChatEndpoint.ContextQuestionHitsTranscript` | main.py:158-163 | while the transcript is live, the question `"context"` is a cache hit whose answer is the transcript |
| `ChatEndpoint.ContextQuestionAnswerOverwritten` | main.py:184-186 | on a miss for `"context"`, the transcript write replaces the answer just cached |
| `ChatEndpoint.SecondAskHits` | main.py:158-184 | for a question other than `"context"`, after a successful miss, asking the same question again within 600 seconds gives the same answer without asking the model and without changing the store |
| `ChatEndpoint.AnswerExpires` | main.py:158-184 | for a question other than `"context"`, from 600 seconds after it was written, a cached answer no longer hits, and the question goes to the model again |
| `ChatEndpoint.EmptyContextScenario` | main.py:166-186 | for a single-line question other than `"context"` and a single-line, non-empty answer that does not end in whitespace: with no live context the question-only prompt is sent and the transcript becomes `"\nUser: q\nAI: r"`; the next request's trimmed context is `"User: q\nAI: r"` |
| `ChatEndpoint.ShortContextScenario` | main.py:166-186 | a stripped context of at most 10 lines reaches the model unchanged, and the new transcript is that context, a newline and the exchange |
| `ChatEndpoint.ServeKeepsTranscriptBound` | main.py:166-186 | one request with a single-line question and answer keeps the stored transcript at 12 lines or fewer |
| `ChatEndpoint.ReplayKeepsTranscriptBound` | main.py:166-186 | however many requests are served one after another, the stored transcript never grows beyond 12 lines when questions and answers are single lines |
| `ChatEndpoint.FreshStoreKeepsTranscriptBound` | main.py:166-186 | the same bound for every store reached from an empty one |

## Left out

- Prometheus counters, histograms and gauges, and the `/metrics` endpoint (main.py:28-48, main.py:86-90, main.py:151, main.py:162, main.py:192, main.py:199). They wrap an external library and do not affect replies or the store.
- CPU and memory sampling through psutil (main.py:54-77). It is operating-system queries and floating point.
- The HTTP middleware and wall-clock latency timing (main.py:93-120, main.py:154, main.py:161, main.py:191, main.py:198). `track_metrics` is never registered as middleware.
- Logging setup and log calls (main.py:17-25, main.py:160, main.py:188, main.py:193, main.py:200).
- FastAPI routing and pydantic validation of `ChatRequest` (main.py:123-124). The question is taken as a given string, and malformed bodies never reach the handler.
- Prompt template rendering and the Ollama model (main.py:130-146). The model keeps only the two prompt kinds and sees the language model as a per-request function from prompt to an optional answer.
- The Redis network client. It is replaced by the `Cache` class. A connection failure is an `outage` flag per round trip, and every cache failure has the same effect on the reply.
- Concurrent requests interleaving on the shared `"context"` key. The model serves one request at a time, so the lost-update race between two misses is not represented.
- Time passing inside one request. The clock is fixed for the whole request, so an entry cannot expire between `exists` and `get`. The `{"answer": null}` reply such an expiry could cause is not modelled.
- `TtlStore.Cache.SetEx`: a failed round trip is taken to have had no effect on the server. A `setex` that Redis applied before the connection dropped, so that the client raises anyway, is not represented; `ChatEndpoint.AnswerWriteFailure` and `ChatEndpoint.ContextWriteFailure` rest on this.
- `TtlStore.Cache.SetEx` requires a positive TTL. Redis rejects others, and the handler only passes 600 and 3600.
- Redis memory eviction and the physical removal of expired keys. An expired entry stays in the map but is invisible to `exists` and `get`, which is all the handler can observe.
- `ChatEndpoint.ReplayKeepsTranscriptBound`, `ChatEndpoint.ServeKeepsTranscriptBound`, `ContextWindow.StoredContextBound`: the 12-line bound on the stored transcript assumes single-line questions and answers. A multi-line answer adds more lines to storage. The 10-line bound on what the model sees (`TrimBound`, `ModelSeesBoundedContext`) holds without that assumption.
- `PyText.IsSpace` lists the characters for which Python's `str.isspace` holds. Code points outside the Basic Multilingual Plane, as Dafny's `char` carries them, are not whitespace there either.
