# Task dispatch and request checks of the Docker experiments demo services

This project models, in Dafny, the two pieces of the repository's demo services
that hold logic of their own:

* **The multi-agent task service** (`03-crewai-compose/app.py`). A fixed registry
  of three agents (`researcher`, `writer`, `analyst`); a resolution rule that
  sends every unregistered task type to `researcher`; a simulated execution that
  returns `"[<agent name>] Completed: <description>"`; `POST /tasks`, which stores
  the task record as JSON under `task:<id>` with `SETEX` and a 3600-second TTL;
  `GET /tasks/{id}`, which reads it back; the health report; and the two
  listings. Redis is an in-memory `Redis.Store` class (a key → (value, expiry)
  map read lazily against an injected clock, plus an optional connection error
  that every command raises while the server is unreachable). The module-level
  client is a `Redis.Store?` handed to each endpoint, `null` standing for the
  client that failed to connect at start-up.
* **The security-hardened API** (`05-security-scans/app.py`). The bearer-token
  table and `verify_api_key`; the ±300-second replay window on the optional
  request timestamp; `/secure-process`; and the middleware that adds four
  security headers to every response, modelled as a `Response` class whose
  header map the middleware updates in place.

Modules: `Wrappers` (Option, Result), `Json` (documents, `json.dumps`/`json.loads`
as an encode/decode pair, last-wins key lookup), `Redis`, `Agents`, `TaskApi`,
`SecureApi`, `SecurityHeaders`.

Behaviour reproduced as the code has it:

* A missing or expired task raises `HTTPException(404)` inside the `try` of
  `get_task`; the generic `except Exception` catches it, so the caller gets 500
  `"Error retrieving task: 404: Task not found"`. `TaskApi.Retrieval` proves that
  `get_task` with a client present never answers anything but 500 on failure.
  The test at `03-crewai-compose/test_app.py:110-113` expects 404.
* Likewise the 400 for a stale timestamp in `secure_process` becomes 500
  `"Secure processing failed"` (`SecureApi.NoBadRequest`).
* `health_check` first sets `"connected"` but overwrites it whenever a client
  exists, so it only ever reports `"disconnected"`, `"healthy"` or `"unhealthy"`.
* A request without `task_type` gets `"research"`, which is not a registry key,
  so it is handled by the research agent through the fallback.
* Only records with status `"completed"` are ever written, and creating a task
  when no client exists still succeeds and returns the result without storing it.

## Model

| member | source | states |
|---|---|---|
| `Json.Dumps` | 03-crewai-compose/app.py:96 | the JSON text written for a record is never the empty byte string, so a written record never takes the "no data" branch of a read |
| `Json.Loads` | 03-crewai-compose/app.py:117 | loading succeeds exactly on bytes that are a dumped JSON document; other UTF-8 text raises the JSON decode error, non-UTF-8 bytes the Unicode decode error |
| `Json.Empty` | 03-crewai-compose/app.py:114 | definition: the stored bytes are falsy exactly when they are the empty byte string (`Text([])`; undecodable bytes are never empty) |
| `Json.LoadsDumps` | 03-crewai-compose/app.py:96-117 | loading what was dumped gives the same document back |
| `Json.Field` | 03-crewai-compose/app.py:117-121 | a key of a loaded object is present iff some member has it, and its value is that of the last member with that key |
| `Json.FieldLastOccurrence` | 03-crewai-compose/app.py:117-121 | a member whose key does not recur later is read back with its own value |
| `Redis.Lookup` | 03-crewai-compose/app.py:113 | GET fails with the connection error iff the server is unreachable; it returns a value iff the key is stored and its expiry is still ahead of the clock, and that value is the stored one |
| `Redis.Written` | 03-crewai-compose/app.py:96 | SETEX adds the key to the stored keys and removes none |
| `Redis.ReadAfterWrite` | 03-crewai-compose/app.py:96 | a value set with TTL `ttl` at time `now` is read back exactly until `now + ttl`, and is absent from then on |
| `Redis.WriteIsolated` | 03-crewai-compose/app.py:96 | setting one key does not change what any other key reads |
| `Redis.Store.Get` | 03-crewai-compose/app.py:113 | GET answers as `Lookup` on the store's current entries and connection state |
| `Redis.Store.SetEx` | 03-crewai-compose/app.py:96 | SETEX raises the connection error and changes nothing when unreachable, else replaces exactly that key's value and expiry |
| `Redis.Store.Ping` | 03-crewai-compose/app.py:61-62 | PING raises exactly when the server is unreachable |
| `Redis.Store.constructor` | 03-crewai-compose/app.py:14-20 | a client starts with no keys and with the given reachability of its server |
| `Agents.Resolve` | 03-crewai-compose/app.py:78 | the chosen agent is always registered; it is the requested type when that is a registry key and `researcher` otherwise |
| `Agents.Execute` | 03-crewai-compose/app.py:37-40 | definition: the result is "[", the agent's name, "] Completed: " and the description |
| `Agents.ExecuteMentions` | 03-crewai-compose/app.py:37-40 | an agent's result contains the agent's name and the task description |
| `Agents.ExecuteDeterminesTask` | 03-crewai-compose/app.py:37-47 | for registered agents, the result determines which agent ran and on which description |
| `Agents.RegistryKeysExact` | 03-crewai-compose/app.py:43-47 | the registry holds exactly three agents, keyed `researcher`, `writer`, `analyst`, each listed once |
| `TaskApi.TaskKeyInjective` | 03-crewai-compose/app.py:96 | two task ids share a Redis key iff they are equal |
| `TaskApi.TaskKey` | 03-crewai-compose/app.py:96 | the key starts with "task:" and the rest is the task id |
| `TaskApi.NewRecordFacts` | 03-crewai-compose/app.py:86-96 | the stored record carries the raw requested type, the resolved registered agent, status `completed`, the creation time, and a result naming the agent and the description that equals the returned result |
| `TaskApi.NewRecord` | 03-crewai-compose/app.py:87-95 | definition: the record built from the request, the resolved agent, the agent's result, status "completed" and the clock |
| `TaskApi.Encode` | 03-crewai-compose/app.py:87-96 | definition: the record as a JSON object with the seven keys in the source's order |
| `TaskApi.Created` | 03-crewai-compose/app.py:98-102 | definition: the response of a successful creation, status "completed" with the resolved agent's result |
| `TaskApi.DefaultTypeFallsBack` | 03-crewai-compose/app.py:78 | the default type `research` (line 24) is unregistered, resolves to `researcher`, and the result names "Research Agent" |
| `TaskApi.CreateTask` | 03-crewai-compose/app.py:73-105 | with no store, or a reachable one, the response is `completed` with the agent's result; a reachable store gains exactly the record under `task:<id>` with TTL 3600 and no other change; an unreachable one changes nothing and the call fails with 500 "Task execution failed: …" |
| `TaskApi.ToResponse` | 03-crewai-compose/app.py:117-122 | a response is built exactly from an object whose `task_id` and `status` are strings and whose `result` is missing, null or a string; it carries their values, and it carries a result exactly when a string `result` is stored, that string; a missing `task_id` is a KeyError |
| `TaskApi.ToResponseEncode` | 03-crewai-compose/app.py:87-122 | decoding an encoded record gives its id, status and result |
| `TaskApi.Describe` | 03-crewai-compose/app.py:126-127 | definition: the text of each exception the generic handler catches |
| `TaskApi.Swallowed` | 03-crewai-compose/app.py:126-127 | definition: a caught exception becomes 500 "Error retrieving task: " followed by its text |
| `TaskApi.Retrieval` | 03-crewai-compose/app.py:112-127 | with a store present every failure is a 500 (never 404); a connection error gives "Error retrieving task: " followed by its text, kept apart from an absent key or empty stored bytes, which give "Error retrieving task: 404: Task not found"; non-empty text that is not JSON gives "Invalid task data"; non-UTF-8 bytes reach the generic handler; a dumped document gives its decoded response, or the generic 500 for the decoding error; success needs a stored, loadable value |
| `TaskApi.GetTask` | 03-crewai-compose/app.py:107-127 | with no store the answer is 503 "Redis not available"; otherwise it is `Retrieval` of what GET `task:<id>` returns at that moment |
| `TaskApi.CreateThenGet` | 03-crewai-compose/app.py:86-122 | reading a created task before its TTL runs out returns the very response its creation returned; from the expiry on it returns the swallowed-404 500 |
| `TaskApi.CreateKeepsOtherTasks` | 03-crewai-compose/app.py:75-96 | creating a task under one id leaves what every other id reads unchanged |
| `TaskApi.HealthCheck` | 03-crewai-compose/app.py:57-71 | status is `healthy` with 3 agents; redis is `disconnected` without a client, `healthy` if PING succeeds, `unhealthy` if it raises |
| `TaskApi.Root` | 03-crewai-compose/app.py:49-55 | the root lists the registry keys in registry order, each once, and reports whether a client exists |
| `TaskApi.ListAgents` | 03-crewai-compose/app.py:129-140 | the listing gives each registered agent's name, role and goal, once each, in registry order |
| `SecureApi.VerifyApiKey` | 05-security-scans/app.py:33-42 | a token is accepted iff it is in the key table, giving its user; otherwise 401 "Invalid API key" with `WWW-Authenticate: Bearer` |
| `SecureApi.KnownTokens` | 05-security-scans/app.py:19-22 | `demo_key_123` authenticates as `demo_user` and `secure_key_456` as `admin_user` |
| `SecureApi.Stale` | 05-security-scans/app.py:84 | definition: a given, non-zero timestamp more than 300 seconds from the clock |
| `SecureApi.StaleWindow` | 05-security-scans/app.py:84 | a timestamp is refused iff it is present, non-zero and more than 300 seconds from the clock in either direction |
| `SecureApi.SecureProcess` | 05-security-scans/app.py:81-103 | succeeds iff the timestamp is not stale and the data could be hashed, then with `processed_at` the clock, level `high` and result "Securely processed: " followed by the digest; every failure is 500 "Secure processing failed" |
| `SecureApi.HandleSecureProcess` | 05-security-scans/app.py:73-103 | an unknown token is refused with the 401 before any processing; a known one gets the processing outcome |
| `SecureApi.NoBadRequest` | 05-security-scans/app.py:81-103 | the endpoint never answers 400: it fails with 401 or, once authenticated, with 500 |
| `SecureApi.WindowBoundary` | 05-security-scans/app.py:84 | a skew of exactly 300 seconds either way is accepted and one of 301 is refused |
| `SecureApi.MissingTimestampSkipsCheck` | 05-security-scans/app.py:84 | without a timestamp, or with timestamp 0, the request is accepted whatever the clock says |
| `SecurityHeaders.Lower` | 05-security-scans/app.py:128-131 | a folded header name has the same length and each character is the input's, with an ASCII upper-case letter replaced by its lower-case form; a name already in lower case is left as it is |
| `SecurityHeaders.SecurityHeaderNames` | 05-security-scans/app.py:128-131 | the four names the middleware assigns fold to the four lower-case keys it sets |
| `SecurityHeaders.Secured` | 05-security-scans/app.py:126-132 | the four security headers have their fixed values and every other header is present and unchanged exactly as before |
| `SecurityHeaders.SecuredByAssignments` | 05-security-scans/app.py:128-131 | the four assignments in sequence produce the secured map |
| `SecurityHeaders.SecuredIdempotent` | 05-security-scans/app.py:126-132 | applying the middleware twice gives the same headers as applying it once |
| `SecurityHeaders.Response.SetHeader` | 05-security-scans/app.py:128 | assigning a header replaces the value under its lower-cased name and keeps the names lower-case |
| `SecurityHeaders.AddSecurityHeaders` | 05-security-scans/app.py:126-132 | after the middleware the response's headers are the secured version of what they were |

## Left out

- The other services of the repository (constant-response app, random-forest model service, GPU/LangChain wrapper, nginx health pages, CI pipeline) and all test files: no logic of their own to state here.
- `hash_data` (PBKDF2 with a random salt): it becomes the `digest` parameter of `SecureApi.SecureProcess`, an opaque string after the fixed prefix, or `None` when encoding the data as UTF-8 fails (a lone surrogate) and hashing raises.
- `time.time()`: the `now` parameter. The record's float timestamp is modelled as that integer, and the Redis server's expiry clock is taken to be the same clock, in whole seconds.
- `uuid.uuid4()`: the `taskId` parameter. Uniqueness of random ids is not modelled; `TaskApi.CreateKeepsOtherTasks` states what distinct ids guarantee.
- `time.sleep(1)` in `execute_task`: simulated latency with no effect on the result.
- Redis connection and PING at import time, and the `/redis/info` endpoint: connection plumbing. Whether a client exists is the `null`-ness of the `Redis.Store?` argument; whether its server answers is the store's `outage`.
- Redis deleting an expired key when GET touches it: not observable through GET, so expired entries simply stay in the map and read as absent.
- The JSON text itself: the store holds the dumped document tree (`Json.Blob`), not its characters, so separators, escaping and number formatting of `json.dumps` are not modelled.
- TaskApi.Describe: the exception texts for a non-object document (`TypeError`), for bytes that are not UTF-8 (`UnicodeDecodeError`) and for a pydantic validation failure are stand-ins ("object is not subscriptable", "'utf-8' codec can't decode bytes", "validation error for TaskResponse: <field>"); the byte position in the Unicode error and pydantic's full multi-line message are not modelled, and only the first invalid field is reported.
- Json.Loads: stored bytes are taken to be UTF-8; the detection of UTF-16 and UTF-32 input that `json.loads` performs on bytes is not modelled.
- The exception text of a Redis connection error is whatever the store's `outage` holds; `redis-py`'s own wording is not modelled.
- `execute_task` cannot fail in this model, so "Task execution failed" arises only from the store write.
- Concurrency: the code has no locking, and concurrent requests are not modelled.
- Request validation by FastAPI and pydantic (422 for a malformed body, 403 from `HTTPBearer` for a missing Authorization header) and uvicorn start-up: framework plumbing.
- The constant `/`, `/health` and `/security-info` endpoints of the security-hardened API: they return literals and environment values.
- Response headers that occur several times under one name: the header collection is modelled as one value per lower-cased name.
- SecurityHeaders.Lower: folds ASCII letters only, where the header collection folds names with Python's full `str.lower()`; the four names the middleware sets are ASCII, so only `Response.SetHeader` on other names is affected.
