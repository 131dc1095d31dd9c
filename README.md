# Crypto assistant demo: routes, route guard and video-search client in Dafny

This project models the rule-bearing parts of a demo web application. The
application is a chat-style "crypto valuation assistant" backed by mock API
routes. It also ships a small Python client for a video-search API. Four pieces
are modelled:

- **Chat route** (`chat.dfy`, module `Chat`). A message is lower-cased and put in
  a topic bucket by an ordered, first-match-wins substring test. The keyword pairs
  are `bitcoin`/`btc`, then `ethereum`/`eth`, then `market`/`crypto`, else general.
  A missing, empty or non-string message gets 400 `Invalid message`. A
  non-general bucket gets its canned response and analysis; the caller's
  `conversation_id` is echoed when given, else one is generated. A general
  message gets one of three fixed replies, picked by `floor(r * 3)`, and always a
  generated id. Generated ids are `conv_`, then up to nine base-36 digits of a
  random draw, then the millisecond clock in base 36.
- **Agents route** (`agents.dfy`, module `Agents`). `start` returns the agent team
  named by `type` and the four static flow steps. An unknown or missing `type`
  falls back to the market-analysis team. A `type` naming a key inherited from
  `Object.prototype` (for example `toString`) finds a truthy non-array, so `.map`
  throws and the route answers 500. `progress` always starts from the
  market-analysis team and the static flow. Each agent gets `min(p + 15r, 100)`.
  Each step gets `min(c + inc, 100)`, where `inc` is `20r'` when a first draw
  exceeds 0.3 and 0 otherwise. Any other action gets 400 `Invalid action`.
- **Route guard** (`middleware.dfy`, module `Middleware`). With no session, a path
  starting with `/dashboard`, `/profile` or `/settings` is redirected to
  `/auth/signin`, with the path as `callbackUrl`. With a session, a path starting
  with `/auth` is redirected to `/`. Everything else passes through.
- **Video-search client** (`memories_client.dfy`, module `MemoriesClient`):
  - `RateLimiter` keeps a list of call timestamps. Each call prunes the ones
    outside the window, waits when the limit is reached, and appends the new one.
  - The POST wrapper retries 429 and 5xx answers. It sleeps for `Retry-After`
    (when that is a decimal digit string) or for a delay that doubles up to 60 s.
  - `find_scene` reduces a search answer to at most `max_results` scenes.
  - `_headers` refuses a missing or placeholder API key.

`strings.dfy` (module `Strings`) holds the shared string helpers: ASCII lower-casing,
`startsWith`/`includes`, and rendering and parsing of base-10 and base-36 digit strings.
`util.dfy` (module `Util`) holds the optional value and the minimum and maximum of two numbers.

Randomness, clocks and the network are parameters. Every `Math.random()` draw is a
real in [0, 1). Clock readings are reals. The server's answers to successive
attempts are a sequence. `float()` on strings is a function parameter. JavaScript
numbers and Python floats are modelled as reals.

Behaviour of the code worth noting, all of it kept by the model:

- `progress` computes each step's status from its completion *before* the
  increment (src/app/api/agents/route.ts:127-128). Since it always starts from the
  static zero completions, every status it returns is `pending`, even when the
  returned completion is positive. So a returned step's status is not always
  the status its returned completion stands for (`Agents.ProgressStatusLags`).
- Agent increments lie in [0, 15) and step increments in [0, 20): `Math.random()`
  never returns 1.
- The chat route returns a flat `{success, response, analysis?, conversation_id}`
  object, and its conversation ids are `conv_` strings, not UUIDs.
- The backoff delay is non-decreasing only for a base delay in [0, 60]. A larger
  base drops to 60 after the first attempt (`MemoriesClient.DelayBounded`).
- When every attempt is answered 429 or 5xx, the retry loop still sleeps after
  the last attempt. `raise_for_status` then raises (for 4xx/5xx). For a status of
  600 or more, the last answer is returned instead.
- `max_retries <= 0` leaves `r` unbound (an `UnboundLocalError`).
- A negative base delay makes `time.sleep` raise.
- With a negative `max_results`, `find_scene` slices from the end, as Python
  slicing does. The bound "at most `max_results` scenes" holds only for a
  non-negative `max_results`.
- In `find_scene`, a `duration` that `float()` rejects raises out of the function:
  that conversion is outside the `try`. A non-dict entry raises too.
- A `RateLimiter` with `max_calls <= 0` raises `IndexError` on `calls[0]` once the
  pruned list is empty.

## Model

| member | source | states |
|---|---|---|
| `Chat.DetectQueryType` | src/app/api/chat/route.ts:129-141 | general exactly when none of bitcoin, btc, ethereum, eth, market, crypto occurs in the lower-cased message; bitcoin exactly when "bitcoin" or "btc" occurs, whatever else occurs |
| `Chat.DetectIgnoresCase` | src/app/api/chat/route.ts:130 | classifying a message and classifying its lower-cased form give the same bucket |
| `Chat.EthereumExactly` | src/app/api/chat/route.ts:134-135 | ethereum exactly when no bitcoin keyword occurs and "eth" occurs as a raw substring ("ethereum" adds nothing) |
| `Chat.MarketExactly` | src/app/api/chat/route.ts:136-137 | market exactly when neither bitcoin keyword nor "eth" occurs and "market" or "crypto" does |
| `Chat.EthVsBtc` | src/app/api/chat/route.ts:132-133 | first match wins: "ETH vs BTC" is a bitcoin query |
| `Chat.SomethingIsEthereum` | src/app/api/chat/route.ts:134-135 | substring matching ignores word boundaries: "something" is an ethereum query |
| `Chat.NewConversationId` | src/app/api/chat/route.ts:160-162 | a generated id starts with "conv_", is all base-36 digits after it when the random digits are, and is at most 9 characters longer than prefix plus clock |
| `Chat.ConversationIdClock` | src/app/api/chat/route.ts:161 | for every draw, however few digits it has, a generated id holds the first (at most nine) random digits after "conv_" and then the clock, which parses back to the millisecond clock it was made from |
| `Chat.GeneralResponse` | src/app/api/chat/route.ts:144-158 | a general reply carries no analysis, one of the three fixed replies (the one at index floor(3r)) and a "conv_" id |
| `Chat.GeneralReplyChoice` | src/app/api/chat/route.ts:151 | the first reply is picked exactly for r < 1/3 and the last exactly for r >= 2/3 |
| `Chat.Post` | src/app/api/chat/route.ts:164-203 | an unreadable body gives 500; a missing, empty or non-string message gives 400 "Invalid message"; otherwise 200 with the bucket's static response and analysis and the caller's id (or a generated one), or a general reply |
| `Chat.ConversationIdEcho` | src/app/api/chat/route.ts:181-191 | for any supplied id (even a "conv_" one), an analysis reply echoes it and a general reply carries the newly generated id instead |
| `Agents.StatusOf` | src/app/api/agents/route.ts:127-128 | completed iff completion >= 100, in-progress iff 0 < completion < 100, pending iff completion <= 0 |
| `Agents.AdvanceAgent` | src/app/api/agents/route.ts:112-115 | only progress changes; it becomes p + 15r when that is at most 100 and exactly 100 otherwise, so it never drops from a value <= 100 |
| `Agents.StepIncrement` | src/app/api/agents/route.ts:118-119 | a step's increment lies in [0, 20) and is 0 when the first draw is at most 0.3 |
| `Agents.AdvanceStep` | src/app/api/agents/route.ts:117-129 | only completion and status change; completion becomes c + inc when that is at most 100 and exactly 100 otherwise, never decreasing from a value <= 100; status is that of the completion before the increment |
| `Agents.Start` | src/app/api/agents/route.ts:100-107 | a known type gives that type's team, a missing or other type the market-analysis team, an inherited key a failure; the flow is the static flow |
| `Agents.StartIsFresh` | src/app/api/agents/route.ts:101-106 | what start hands out is three agents at progress 0 and four steps with ids 1..4, completion 0 and status pending |
| `Agents.StartTechnical` | src/app/api/agents/route.ts:36-40 | start with "technical_analysis" gives Technical Analyst, Momentum Trader, Risk Manager |
| `Agents.Progress` | src/app/api/agents/route.ts:110-136 | three market-analysis agents with only progress changed (to 15r), four static steps in order with only completion changed (to the step increment) and every status pending |
| `Agents.ProgressStatusLags` | src/app/api/agents/route.ts:125-128 | a step whose flip succeeds with a positive amount returns a positive completion yet status pending, unlike the status its completion stands for |
| `Agents.Post` | src/app/api/agents/route.ts:96-150 | start and progress give 200 with their snapshots (start with an inherited key gives 500), an unreadable body 500, any other action 400 "Invalid action" |
| `Middleware.Guard` | src/middleware.ts:5-28 | sign-in redirect with callbackUrl equal to the path exactly when signed out on a protected prefix; redirect home exactly when signed in on an /auth path; pass-through exactly otherwise |
| `Middleware.ProtectedIsNotAuth` | src/middleware.ts:7-13 | no path is both protected and an auth page |
| `Middleware.NoRedirectLoop` | src/middleware.ts:16-25 | following any redirect with the same session state lands on a page that passes through |
| `Middleware.RedirectMatchesSession` | src/middleware.ts:16-25 | a signed-in user is never sent to sign in and a signed-out user never home |
| `Middleware.PrefixMatching` | src/middleware.ts:11-13 | matching is by prefix: /dashboardX and /settings/a/b are protected, /authors is an auth page |
| `MemoriesClient.Prune` | memories_api_client_fixed.py:27 | the pruned list keeps every copy of each timestamp t with now - t < window and no copy of any other; a single timestamp survives exactly when it is inside the window |
| `MemoriesClient.PruneAppend` | memories_api_client_fixed.py:27 | pruning a concatenation is the concatenation of the pruned parts, so survivors keep their original order, sorted clock or not |
| `MemoriesClient.PruneSortedIsSuffix` | memories_api_client_fixed.py:27-31 | on a sorted list pruning drops a prefix, so the first survivor is the oldest |
| `MemoriesClient.PruneSorted` | memories_api_client_fixed.py:27 | pruning a sorted list leaves it sorted |
| `MemoriesClient.PruneKeepsWindow` | memories_api_client_fixed.py:27 | pruning keeps the bound of at most max_calls recorded calls in any window-long span |
| `MemoriesClient.KeptFitWindow` | memories_api_client_fixed.py:29-31 | calls all within one window of now number at most max_calls under the window bound |
| `MemoriesClient.AppendKeepsWindow` | memories_api_client_fixed.py:29-36 | recording a call after the wait due keeps the list sorted and within the window bound |
| `MemoriesClient.RateBound` | memories_api_client_fixed.py:24-36 | with a monotone clock and honoured waits, prune-wait-append keeps the list sorted and never more than max_calls calls in any window |
| `MemoriesClient.RateLimiter.constructor` | memories_api_client_fixed.py:19-22 | defaults 80 calls per 60 s; the list starts empty |
| `MemoriesClient.RateLimiter.WaitIfNeeded` | memories_api_client_fixed.py:24-36 | the list becomes the pruned list plus the new reading at its end; a wait of window - (now - oldest) is requested exactly when at least max_calls remain and it is positive; IndexError exactly when the limit is reached on an empty list; the invariant is kept under a monotone clock |
| `MemoriesClient.PostJsonWithRetries` | memories_api_client_fixed.py:238-253 | at most max_retries requests, every one but the last answered 429 or 5xx; returns the first answer that is neither 429 nor 5xx; every sleep is for a retryable answer and equals Retry-After or the current delay; after exhausting attempts raise_for_status raises for 4xx/5xx; no attempt when max_retries <= 0 |
| `MemoriesClient.DelayDoublesToCap` | memories_api_client_fixed.py:239-250 | for a base delay in [0, 60] the delay at attempt k is min(base * 2^k, 60) |
| `MemoriesClient.DelayMonotone` | memories_api_client_fixed.py:250 | for a base delay in [0, 60] the delay never decreases and never exceeds 60 |
| `MemoriesClient.DelayBounded` | memories_api_client_fixed.py:250 | for any base delay >= 0 the delay stays within [0, max(base, 60)], and a base above 60 drops to 60 at once |
| `MemoriesClient.RetryAfterRoundTrip` | memories_api_client_fixed.py:246-247 | a decimal Retry-After header is slept for exactly the number it spells |
| `MemoriesClient.SleepBounded` | memories_api_client_fixed.py:246-250 | with a base delay in [0, 60] every sleep is non-negative and at most 60 s unless the server sent Retry-After |
| `MemoriesClient.CollectScenesMeaning` | memories_api_client_fixed.py:222-236 | the loop raises exactly when some entry fails; otherwise it returns the convertible entries in order, never more than it was given |
| `MemoriesClient.SliceTo` | memories_api_client_fixed.py:223 | Python's `videos[:m]`: a prefix of length min(m, len) for m >= 0 and max(len + m, 0) for m < 0 |
| `MemoriesClient.FindScene` | memories_api_client_fixed.py:199-236 | the result is the loop over the first max_results videos; at most max_results scenes for max_results >= 0; [] when the answer is not a dict, has no dict "data" or no list "videos" |
| `MemoriesClient.AuthHeaders` | memories_api_client_fixed.py:194-197 | refused exactly when the key is unset, empty or the placeholder; otherwise exactly {"Authorization": key} |

## Left out

- Floating point: JavaScript numbers and Python floats are reals, so rounding, infinities and NaN are not modelled.
- Unicode: `toLowerCase` is modelled on ASCII letters only. `str.isdigit` is modelled on ASCII digits only; Python also accepts other Unicode digits, some of which `int()` then rejects.
- The simulated 1-3 s delay of the chat route, the `GET` handlers of both routes and the `console.error` logging are not modelled.
- The chat route's `conversation_id` is modelled as a string or absent. A non-string value, which `??` would echo unchanged, is not modelled.
- The agents route's `type` is modelled as the property key it becomes. How JavaScript turns a non-string value into a key is not modelled.
- The route guard's session lookup (`auth()`) is a boolean parameter. The `matcher` pattern that selects the requests the guard sees is not modelled. A redirect is modelled as its target path and `callbackUrl` value: the request's origin and the URL encoding are not modelled.
- Python client:
  - HTTP requests, `time.sleep`, `time.time` and printing are not modelled; they are parameters and results.
  - Each attempt of the retry loop also passes the global rate limiter, and network exceptions propagate. Neither is modelled.
  - `find_scene` starts from the decoded answer and does not model its request.
  - `float()` on strings is a parameter. `OverflowError` on huge integers is not modelled.
- `upload_by_url`, `rate_limited_request`, `wait_until_parsed_optimized` and `wait_until_queryable_optimized` are not modelled. They are HTTP calls and wall-clock polling loops with float backoff.
- The market-data route, the React components and the authentication configuration are not part of this model. They are an outbound fetch with floating-point synthesis, UI code, and library configuration.
- `MemoriesClient.RateLimiter.WaitIfNeeded`: the invariant (sorted, window bound) is promised only when the clock is monotone and the wait was honoured. The Python code cannot promise more, because it reads the wall clock.
