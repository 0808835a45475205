# Stage orchestration core of the agentic game builder

This project models the server side of the game builder in Dafny and proves properties about it.
A session record moves through the stages INIT → CLARIFYING → PLANNING → BUILDING → COMPLETED, or
ends up FAILED. Each call of `Controller.start` reads the session, runs the one stage its status
calls for, and returns a tagged outcome. The stages are:

- the clarifier, which asks questions about a game idea until it is sufficiently clear;
- the planner, which turns the clarified requirements into a game plan;
- the coder, which turns the plan into the game's files.

Every stage asks the model gateway `LLM.generate`. The gateway does four things:

- it keeps a response cache keyed by a digest of the system prompt followed by the user prompt;
- it picks the model, the temperature and the token budget by mode;
- it runs the provider call through the retry loop of `utils.ts`, which classifies failures with
  the `LLMError` constructor. The gateway runs that loop as the code has it
  (`Retry.RunWithRetryAsWritten`), which never makes a second attempt (see Findings). The loop as
  evidently intended (`Retry.RunWithRetry`) is modelled beside it, with its own proofs;
- it marks the session FAILED on any error.

The route guard `middleware` decides, from the path and the session cookies, whether a web request
passes, goes to `/login` or goes to `/builder`.

The two database tables are classes over maps:

- `Db.Store` holds the `session` table as a `map<Id, Session>`.
- `Db.Cache` holds the `llmCache` table as a `map<Key, CacheEntry>`.

The provider is `Effects.Provider`, an oracle. Its n-th call returns the n-th entry of a script of
completions and records the request. The backoff sleeps are recorded by `Effects.Clock` as delays
in milliseconds.

Each operation that changes state is written twice:

- a method on these classes, as the source does it step by step;
- a function of the "world" (sessions, provider calls, sleeps) and of the cache.

Each method's `ensures` says that its result and new state are exactly the ones the function gives.
The properties are then proved about the functions.

The `switch` of `start` is split into two parts. `Control.DispatchSpec` is its decision: which agent
to call, with which arguments and under which tag, or which output to read from the record.
`Control.Controller.Invoke` makes the agent call. The agents are still built for the session's id
before the `switch`, as the source does.

Layout, one module per source file:

- `wrappers.dfy`: `Option` and `Result`.
- `text.dfy`: `includes`, `toLowerCase` and `join`.
- `types.dfy`: the payload shapes and the parsed JSON value.
- `errors.dfy`: `LLMError` and the thrown values.
- `db.dfy`: the two tables and the table invariant.
- `effects.dfy`: the provider, the clock and the world.
- `completion.dfy`: one provider attempt.
- `retry.dfy`: `runWithRetry`, both as written (used by the gateway) and corrected.
- `gateway.dfy`: `LLM.generate`.
- `clarifier.dfy`, `planner.dfy` and `coder.dfy`: the three agents.
- `controller.dfy`: `Controller.start`.
- `middleware.dfy`: the route guard.

The table invariant (`Db.AllConsistent`) says four things:

- a CLARIFYING or PLANNING session has a clarification;
- a BUILDING session has a plan;
- a COMPLETED session has code;
- a FAILED session has an error.

Every stage and every `start` call keeps it (`Control.StartKeepsConsistent`).

Behaviours of the code worth noting:

- **Which failures are retried.** Every thrown value that is not an `LLMError` takes the "retry"
  branch of the loop. That includes an empty answer, a `JSON.parse` failure and a provider-client
  error. Only a non-retryable `LLMError` gives up at once.
- **A missing session.** `start` throws "Session not found", and its catch block then updates the
  missing row. Prisma's `update` throws on a missing row, so `start` rejects with the database's
  error and writes nothing. The session is not recorded as FAILED.
- **The cache insert.** It is a plain `create` on the unique prompt hash, not an "insert or ignore".
  The gateway only inserts right after a lookup of the same key missed.
- **The retry loop as written** never makes a second attempt (see Findings). On a miss, a retried
  failure makes `generate` throw "Unreachable" after one call and one sleep of 1000 ms, and the
  session records "Unreachable" as its error.
- **A thrown `null` or `undefined`.** The loop's log line reads `err.message`, which throws a
  `TypeError`. That `TypeError` escapes the loop without a sleep or a write of the loop's own, and
  the gateway records its message.

## Model

| member | source | states |
|---|---|---|
| Text.ToLower | packages/model/llm/utils.ts:15 | `toLowerCase` keeps the length, leaves no upper-case letter, moves each upper-case letter to its lower-case partner and keeps every other character |
| Text.ToLowerIdempotent | packages/model/llm/utils.ts:15 | lower-casing twice is lower-casing once |
| Text.ToLowerKeepsLower | packages/model/llm/utils.ts:15 | text without upper-case letters is unchanged by lower-casing |
| Text.Contains | packages/model/llm/utils.ts:15 | `includes` holds exactly when the pattern occurs at some position |
| Text.JoinAt | packages/agents/coder.ts:88-96 | `join` puts element i at its offset, with a separator after every element but the last, so the order is kept |
| Text.JoinMentions | packages/agents/clarifer.ts:70 | every element of a joined list occurs in the joined string |
| LlmErrors.NewLlmError | packages/model/llm/utils.ts:6-26 | retryable iff the status is 500 or 503, and then named "Provider server error"; a 429 is named by whether the message mentions a rate limit or quota; any other or absent status is "Unknown Error"; the message is kept |
| LlmErrors.RetryClassification | packages/model/llm/utils.ts:40 | the loop gives up at once exactly on an LLMError whose status is neither 500 nor 503, so a 429 and an absent status are never retried, and every other thrown value is retried |
| LlmErrors.QuotaOnlyNames | packages/model/llm/utils.ts:14-21 | for a 429 the message only selects the name ("Quota exhausted" gives Rate Limit Exceeded, "slow down" gives Too many Requests); both are non-retryable |
| Db.NoChangeKeeps | packages/controller/index.ts:91-99 | an update that names no column leaves the row unchanged |
| Db.LaterPatchWins | packages/controller/index.ts:91-99 | two updates in a row equal one update in which the later update wins on each column it names and the earlier one's other columns stay |
| Db.FailureOverwrites | packages/model/llm/index.ts:80-88 | a second FAILED write replaces the first one's message, as if the first had not happened |
| Db.Updated | packages/controller/index.ts:91-99 | updating one id changes that row as the patch says and leaves every other row and the key set alone |
| Db.Store.Find | packages/controller/index.ts:26-30 | `findUnique` returns the stored row iff the id is present |
| Db.Store.Update | packages/agents/planner.ts:59-67 | `update` on a present id applies the patch to that row only; on a missing id it reports the throw and changes nothing |
| Db.Cache.Lookup | packages/model/llm/index.ts:36-40 | the lookup returns the stored entry iff the hash is present |
| Db.Cache.Insert | packages/model/llm/index.ts:69-75 | `create` adds exactly one entry under a fresh hash |
| Db.FailOnlyKeepsConsistent | packages/model/llm/index.ts:80-88 | marking sessions FAILED with a reason keeps the table invariant |
| Db.FailureWriteFailsOnly | packages/controller/index.ts:91-99 | a `{status: FAILED, error}` write, with or without a retry count, only marks that session failed |
| Db.ConsistentAfter | packages/agents/clarifer.ts:85-104 | a stage that leaves its own row consistent and every other row unchanged keeps the table invariant |
| Effects.Provider.Call | packages/model/llm/index.ts:47-56 | a provider call returns the scripted outcome for its call number and records the request |
| Effects.Clock.Sleep | packages/model/llm/utils.ts:71 | a sleep records its delay and nothing else |
| Effects.RoundStepTransitive | packages/model/llm/utils.ts:35-76 | provider rounds compose: only the round's own session changes and only by being failed, only the same request is sent, sleeps are only appended |
| ProviderCall.AttemptSpec | packages/model/llm/index.ts:46-66 | one attempt makes exactly one call with the request and no sleep, and a successful attempt writes nothing |
| ProviderCall.AttemptOutcome | packages/model/llm/index.ts:57-65 | an attempt succeeds iff the content is non-empty and parses, and then returns the parsed value; empty content fails the session with "No content in LLM response" and throws that message |
| ProviderCall.Attempt | packages/model/llm/index.ts:46-66 | the attempt's result and new sessions and calls are those of `AttemptSpec` |
| Retry.GiveUp | packages/model/llm/utils.ts:41-53 | giving up writes FAILED, `retries := attempt` and the prefixed message, then rethrows the same error, with no call and no sleep; when the message of a thrown `null` or `undefined` cannot be read, it throws that `TypeError` and writes nothing |
| Retry.RetryAsWrittenSpec | packages/model/llm/utils.ts:35-76 | the loop as written makes exactly one provider call when `retries >= 1` and none otherwise, and changes no session but its own, which it can only fail |
| Retry.RunWithRetryAsWritten | packages/model/llm/utils.ts:29-78 | the loop as written ends with the result and state of `RetryAsWrittenSpec` |
| Retry.RetryFrom | packages/model/llm/utils.ts:35-76 | the corrected loop makes at most `retries - attempt + 1` calls and fewer sleeps than calls, and the k-th sleep is `delay * (attempt + k)` |
| Retry.RunWithRetry | packages/model/llm/utils.ts:29-78 | the corrected loop ends with the result and state of `RetryFrom` from attempt 1 |
| Retry.RetriedAttemptFails | packages/model/llm/utils.ts:55 | an attempt scripted to fail retriably fails with an error the loop neither gives up on nor fails to read the message of |
| Retry.FirstSuccessWritesNothing | packages/model/llm/utils.ts:36-37 | if the first attempt succeeds, both loops return its value after one call with no session write |
| Retry.NonRetryableShortCircuits | packages/model/llm/utils.ts:40-53 | a non-retryable LLMError fails the session with `retries := 1` and the prefixed message, and is rethrown after exactly one call, in both loops |
| Retry.AsWrittenStopsAfterOneFailure | packages/model/llm/utils.ts:70-75 | as written, with `retries >= 2`, a retried failure sleeps `delay` once and throws "Unreachable", with one call and no FAILED write of its own |
| Retry.AsWrittenSingleAttemptGivesUp | packages/model/llm/utils.ts:55-68 | as written, with `retries == 1`, a retried failure fails the session with `retries := 1` and rethrows the error |
| Retry.NullishThrowEscapes | packages/model/llm/utils.ts:70 | as written, a thrown `null` or `undefined` makes the log line throw a `TypeError` after the one call, with no sleep and no write |
| Retry.RetryGoesOn | packages/model/llm/utils.ts:70-72 | corrected loop: a retried failure with attempts left makes one call, sleeps `delay * attempt` and goes on with the next attempt, keeping the session rows |
| Retry.RetryGivesUpLast | packages/model/llm/utils.ts:56-68 | corrected loop: a retried failure on the last attempt fails the session with `retries` equal to that attempt, after one call and no sleep |
| Retry.RetryRecovers | packages/model/llm/utils.ts:35-72 | corrected loop: k retried failures and then a success, within the budget, return that success after k+1 calls and k sleeps |
| Retry.RetryExhausts | packages/model/llm/utils.ts:55-68 | corrected loop: when every allowed attempt fails retriably, it makes exactly that many calls and sleeps one fewer, and leaves the session FAILED with `retries` equal to the last attempt |
| Retry.UnreachableCounterexample | packages/model/llm/utils.ts:75 | with the defaults 3 and 1000, a provider-client error (a plain `Error`, such as the client's 503 failure) followed by an answer makes the loop as written throw "Unreachable", while the corrected loop returns the answer |
| Gateway.RequestFor | packages/model/llm/index.ts:32-56 | PLAN uses MODEL, temperature 0.4 and 2048 tokens; BUILD uses CODEMODEL, 0.2 and 16000; the prompts and the JSON flag pass through unchanged |
| Gateway.GenerateSpec | packages/model/llm/index.ts:31-93 | Properties of one `generate` call: provider calls carry only this request, no session but `p.sessionId` changes and that one can only be failed; cache entries are only added, and only under this prompt's key; a newly cached entry is truthy, holds the returned value and records the mode's model; every truthy success is cached; any failure leaves the session FAILED with the thrown error's message |
| Gateway.LLM.Generate | packages/model/llm/index.ts:31-93 | `generate` ends with the result, world and cache of `GenerateSpec` |
| Gateway.HitIgnoresEverythingButPrompts | packages/model/llm/index.ts:33-44 | on a hit the result depends only on system + prompt, not on mode, JSON flag or session; it returns the stored response with no call and no write |
| Gateway.CacheIdempotent | packages/model/llm/index.ts:36-77 | asking again for the same prompts after a truthy answer returns the same answer from the cache, with no call and no write |
| Gateway.GenerateAnswers | packages/model/llm/index.ts:46-77 | on a miss whose answer parses, `generate` returns it after one call with no session write, and caches it with the mode's model exactly when it is truthy |
| Gateway.GenerateUnreachable | packages/model/llm/index.ts:46-91 | on a miss whose first attempt fails retriably, `generate` throws "Unreachable" after one call and one 1000 ms sleep; the session is FAILED with error "Unreachable" and nothing else changes, and the cache is unchanged |
| Gateway.GenerateGivesUpAtOnce | packages/model/llm/index.ts:46-91 | on a miss whose first attempt throws a non-retryable LLMError, one call and no sleep; the catch overwrites the loop's "Max retries reached" text, so the session keeps the error's own message with `retries == 1`; the error is rethrown and the cache is unchanged |
| Gateway.GenerateNullishThrow | packages/model/llm/index.ts:46-91 | on a miss whose first attempt throws `null` or `undefined`, the loop's `TypeError` is rethrown and recorded as the session's error, after one call and no sleep |
| Gateway.OnlyAskedIn | packages/model/llm/index.ts:47-56 | every call of a request with the JSON flag carries the mode's model, its token budget and JSON mode |
| Clarifier.ClarifySpec | packages/agents/clarifer.ts:65-109 | Properties of `clarify`: calls go out only with the clarifier's system prompt, PLAN mode, JSON and the agent's session; a truthy answer is stored as the clarification, with status CLARIFYING, or PLANNING when it is sufficient, and every other column (error and retry count included) is kept; a falsy answer or a failure at most marks its own session failed and changes no other; a failure leaves the session FAILED with its message; a null history selects the first-round "Game idea:" prompt, a clarification the follow-up prompt, and any other truthy history throws before any call |
| Clarifier.ClarifierAgent.Clarify | packages/agents/clarifer.ts:65-109 | `clarify` ends with the result, world and cache of `ClarifySpec` |
| Clarifier.ClarifierPromptMentions | packages/agents/clarifer.ts:66-76 | without history the prompt is the "Game idea:" form; with a clarification it carries the previous summary, every open question, the user's answer and the follow-up instructions |
| Clarifier.FollowUpMentions | packages/agents/clarifer.ts:68-74 | the follow-up prompt contains the summary, each open question, the answer and the follow-up prompt |
| Clarifier.ClarifyKeepsConsistent | packages/agents/clarifer.ts:85-104 | the clarifier keeps the table invariant |
| Clarifier.SufficiencyDecides | packages/agents/clarifer.ts:95-104 | after a truthy answer the session is PLANNING iff `isSufficient` holds; confidence plays no part |
| Clarifier.ClarifyIsStage | packages/agents/clarifer.ts:77-83 | the clarifier is a stage in PLAN mode: its calls carry the planning model, 2048 tokens and JSON |
| Clarifier.ClarifyPassesThrough | packages/agents/clarifer.ts:85-106 | the gateway's answer is returned unchanged, and a falsy answer or a failure adds no write of the clarifier's own |
| Planner.PlanSpec | packages/agents/planner.ts:43-73 | Properties of `plan`: calls go out only with the planner's prompt, PLAN mode and JSON; a truthy answer is stored as the plan, with BUILDING, in one update that keeps every other column (error and retry count included); a falsy answer or a failure at most marks its own session failed and changes no other; a failure leaves the session FAILED with its message |
| Planner.PlannerAgent.Plan | packages/agents/planner.ts:43-73 | `plan` ends with the result, world and cache of `PlanSpec` |
| Planner.PlannerPromptMentions | packages/agents/planner.ts:44-48 | the prompt contains both the game idea and the clarified requirements |
| Planner.PlanKeepsConsistent | packages/agents/planner.ts:58-68 | planning a session that has a clarification keeps the table invariant |
| Planner.PlanIsStage | packages/agents/planner.ts:50-56 | the planner is a stage in PLAN mode |
| Planner.PlanPassesThrough | packages/agents/planner.ts:58-70 | the gateway's answer is returned unchanged, and a falsy answer or a failure adds no write of the planner's own |
| Coder.SystemFor | packages/agents/coder.ts:78 | the vanilla prompt is chosen iff the framework is exactly "vanilla"; any other value selects Phaser |
| Coder.MechanicLines | packages/agents/coder.ts:88 | one "- name: description" line per mechanic, in plan order |
| Coder.ControlLines | packages/agents/coder.ts:91 | one "- input → action" line per control, in plan order |
| Coder.AssetLines | packages/agents/coder.ts:96 | one "- a" line per asset description, in plan order |
| Coder.CoderPromptMentions | packages/agents/coder.ts:80-102 | the build prompt contains the title, description, framework and game loop, every mechanic line, every control line, every system and every asset line |
| Coder.BuildSpec | packages/agents/coder.ts:76-125 | Properties of `build`: calls go out only with the framework's system prompt, BUILD mode and JSON; a truthy answer is stored as the code, with COMPLETED, in one update that keeps every other column (error and retry count included); a falsy answer or a failure at most marks its own session failed and changes no other; a failure leaves the session FAILED; a null or non-plan argument throws before any call |
| Coder.CoderAgent.Build | packages/agents/coder.ts:76-125 | `build` ends with the result, world and cache of `BuildSpec` |
| Coder.BuildKeepsConsistent | packages/agents/coder.ts:112-122 | building a session that has a clarification and a plan keeps the table invariant |
| Coder.BuildIsStage | packages/agents/coder.ts:104-110 | the coder is a stage in BUILD mode: its calls carry the code model, 16000 tokens and JSON |
| Coder.BuildPassesThrough | packages/agents/coder.ts:112-124 | the answer is stored as the code and returned unchanged, whatever its files and entry point; a falsy answer or a failure adds no write of the coder's own |
| Control.Caught | packages/controller/index.ts:88-103 | the catch block marks the session FAILED with the error's message (or "Unknown error") and returns ERROR with that same message; with no row, the write throws and `start` rejects unchanged |
| Control.DispatchSpec | packages/controller/index.ts:38-86 | the `switch` answers from the record exactly for the non-running statuses, and throws before any agent call only for PLANNING without a clarification; every agent call it makes is tagged by the status, never ERROR, and is the agent that status calls for |
| Control.StageArguments | packages/controller/index.ts:39-67 | INIT runs the clarifier on the original prompt with no history; CLARIFYING runs it on a non-empty user message (else the prompt) with the stored clarification; PLANNING runs the planner on the stored summary and the prompt; BUILDING runs the coder on the stored plan; each under its tag |
| Control.CallIsStage | packages/controller/index.ts:38-67 | every agent call is a stage in its mode (the code model for the coder, the planning model otherwise): it changes no other session, only adds cache entries, and does nothing to its own session but fail it unless it returns a truthy value |
| Control.CallMoves | packages/controller/index.ts:38-67 | an agent call that fits its session's status and returns a truthy value stores its payload and moves the session to the status that payload calls for, keeping every other column, error and retry count included |
| Control.SwitchShape | packages/controller/index.ts:38-86 | the `switch` hands back the stored output or the thrown error with nothing changed, or the tagged outcome of its agent call with the world and cache that call leaves |
| Control.SwitchSteps | packages/controller/index.ts:34-86 | the branch the `switch` hands back carries the status's tag, its agent call behaves as a stage in the status's mode, and a truthy value moves the session as its stage says |
| Control.Controller.Start | packages/controller/index.ts:24-105 | `start` ends with the result, world and cache of `StartSpec` |
| Control.Controller.Switch | packages/controller/index.ts:34-86 | the `switch` hands back the branch of `SwitchSpec`, with the world and cache it gives |
| Control.Controller.Invoke | packages/controller/index.ts:40-63 | an agent call ends as `CallSpec` says for the agents built with the session's id |
| Control.Controller.Catch | packages/controller/index.ts:88-103 | the catch block ends as `Caught` says |
| Control.MovedKeepsConsistent | packages/controller/index.ts:38-67 | a stage's move keeps the session's id, stores the payload its new status needs, and is one of the allowed status moves |
| Control.FinishKeepsConsistent | packages/controller/index.ts:38-103 | after a `switch` that behaved as a stage, returning or catching keeps the table invariant |
| Control.StartKeepsConsistent | packages/controller/index.ts:24-105 | `start` keeps the table invariant: CLARIFYING/PLANNING need a clarification, BUILDING a plan, COMPLETED code, and FAILED an error |
| Control.FinishAdvances | packages/controller/index.ts:38-103 | after a `switch` that behaved as a stage, returning or catching moves the session at most one stage or fails it, leaves every other session unchanged and only adds cache entries |
| Control.StartAdvances | packages/controller/index.ts:24-105 | one `start` moves its session at most one stage forward or fails it; every other session is left exactly as it was (no row added or removed), and cache entries are only added |
| Control.TagFollowsStatus | packages/controller/index.ts:38-86 | for a present session `start` always returns, and the tag matches the starting status or is ERROR; BUILDING reports CODING, never COMPLETED |
| Control.ErrorIsRecorded | packages/controller/index.ts:88-103 | an ERROR outcome for a running session leaves it FAILED with the reported message as its error |
| Control.FinishRecordsError | packages/controller/index.ts:88-103 | when the `switch` did not answer from the record and its stage did not use the ERROR tag, an ERROR outcome comes from the catch block, which stored the same message |
| Control.SettledSessionsAreOnlyRead | packages/controller/index.ts:69-84 | COMPLETED returns the stored code, FAILED returns ERROR with the stored error, and any other status returns ERROR "Unknown session status"; none calls the provider or writes |
| Control.MissingSessionRejects | packages/controller/index.ts:24-105 | a missing session makes `start` reject with the database's "record not found" error and change nothing |
| Control.ModelFollowsStatus | packages/controller/index.ts:38-86 | INIT, CLARIFYING and PLANNING call the planning model, BUILDING calls the code model, and the other statuses make no call |
| RouteGuard.LoggedIn | apps/web/src/middleware.ts:6-10 | logged in iff the secure or the plain session cookie has a non-empty value |
| RouteGuard.Middleware | apps/web/src/middleware.ts:13-33 | `/api/auth…` and `/` always pass; redirect to `/login` iff the path is protected and the user is not logged in; redirect to `/builder` iff the path is exactly `/login` and the user is logged in; everything else passes |
| RouteGuard.ProtectedIsNotOpen | apps/web/src/middleware.ts:14-16 | no protected path is always open, and `/login` is neither |
| RouteGuard.PrefixGuardsLookalikes | apps/web/src/middleware.ts:16 | protection is a raw prefix test: `/builderX` and `/api/chatty` redirect a visitor, `/build` does not |
| RouteGuard.EmptyTokensDoNotCount | apps/web/src/middleware.ts:6-10 | an empty secure cookie does not hide a non-empty plain one, empty values never log in, and a visitor on `/login` passes |

## Left out

- SHA-256 is not modelled. The digest is the uninterpreted `Config.hash`, applied to system + prompt.
- The OpenAI/OpenRouter client is not modelled. Its answers are the scripted `Completion`s.
- `JSON.parse` is not modelled. Its result is part of each scripted completion.
- Only the first choice's content is read, and a missing message is folded into empty content.
- Console logging is left out.
- Real time is left out. A sleep records its delay.
- Cancellation and timeouts of the provider call are left out.
- Temperatures are tenths (0.4 is 4), because Dafny has no floats to match the source's numbers.
- Falsy JSON values (null, false, 0, "") are all `Json.Null`. The core only tests them for truthiness.
- A truthy value of none of the three shapes is `Json.OtherObject`. It carries none of the fields the stages read.
- `PlanResponse.framework`, declared as "vanilla" | "phaser", is any string, because nothing checks it.
- `TypeError` messages are modelled only for reads of `null` and `undefined`. A stored value of the wrong shape that has the field is not modelled.
- `Text.ToLower` lower-cases ASCII letters only. Unicode case mapping is not modelled.
- The long prompt constants are abbreviated. The clarifier's SYSTEM_PROMPT and FOLLOWUP_PROMPT and the planner's SYSTEM_PROMPT keep their first line; the coder's two system prompts keep their first sentence.
- The prompt templates themselves are modelled character for character.
- The Prisma schema is not part of this model.
- The session columns that the core neither reads nor writes (user, timestamps) are left out.
- The only database failure modelled is a missing row.
- Db.Cache.Insert requires a fresh hash instead of modelling the unique-constraint error. The gateway inserts only right after a miss, so a duplicate can arise only from concurrent calls, which are left out.
- Concurrent `start` calls on one session, and races between lookup and insert, are left out. The core runs them without locking.
- Control.Controller.constructor is given its `LLM` instead of building one from the environment. The environment (database, provider, models) is passed to `Gateway.LLM` explicitly.
- The source never constructs an `LLMError`. Only the provider oracle may raise one, as `LlmException(message, status)`.
- The route guard's `matcher` configuration is not modelled. It decides which paths reach the guard at all.
- The guard's redirects are given as paths. The absolute URL built from the request is not modelled.
- The UI, the HTTP and CLI entry points, the authentication setup and the generated sample games are outside this core.

## Findings

| source | as written | input that shows it | evidently intended | confidence | as-written member | corrected member |
|---|---|---|---|---|---|---|
| packages/model/llm/utils.ts:75 | `throw new Error("Unreachable")` sits inside the `for` body, after the `catch`, so every pass ends in a return or a throw and the loop never reaches attempt 2 | default `retries = 3`, `delay = 1000`; the provider client throws a plain `Error` on the first call (for instance on a 503; the code never builds an `LLMError`) and the second call would return `{}`: the loop sleeps 1000 ms and throws "Unreachable", making one call and writing no FAILED record of its own | retry up to `retries` times with backoff `delay * attempt`, and throw only after the loop | high, not executed | Retry.RunWithRetryAsWritten, Retry.UnreachableCounterexample | Retry.RunWithRetry, Retry.RetryRecovers |
