/**
 * The HTTP endpoints of the multi-agent task service: creating a task
 * (resolve an agent, run it, store the record under `task:<id>` for an hour),
 * reading a task back, the health report and the two listings.
 *
 * The module-level Redis client is a `Redis.Store?` passed to each endpoint:
 * `null` is the client that failed to connect at start-up. `uuid.uuid4()`
 * and `time.time()` become the parameters `taskId` and `now`.
 */
module TaskApi {
  import opened Wrappers
  import opened Json
  import opened Agents
  import Redis

  /** The task type a request gets when it names none. */
  const DEFAULT_TASK_TYPE := "research"
  /** Seconds a stored task record stays readable. */
  const TASK_TTL := 3600

  datatype TaskRequest = TaskRequest(description: string, taskType: string)

  datatype TaskResponse = TaskResponse(taskId: string, status: string, result: Option<string>)

  datatype HttpError = HttpError(status: int, detail: string)

  /** The record `create_task` stores in Redis. */
  datatype TaskRecord = TaskRecord(
    taskId: string,
    description: string,
    taskType: string,
    agent: string,
    result: string,
    status: string,
    timestamp: int)

  /** The exceptions `get_task` raises inside its `try` and hands to its generic handler. */
  datatype Cause =
    | TaskNotFound            // the HTTPException(404) raised for a missing key
    | StoreError(message: string)
    | MissingKey(key: string) // KeyError from data["..."]
    | NotSubscriptable        // TypeError: the document is not a JSON object
    | NotUtf8                 // UnicodeDecodeError: the stored bytes are not UTF-8
    | InvalidField(field: string)

  function TaskKey(taskId: string): (key: string)
    ensures "task:" <= key && key[5..] == taskId
  {
    "task:" + taskId
  }

  /** Different task ids never share a Redis key. */
  lemma TaskKeyInjective(a: string, b: string)
    ensures TaskKey(a) == TaskKey(b) <==> a == b
  {
    if TaskKey(a) == TaskKey(b) {
      assert a == TaskKey(a)[5..] && b == TaskKey(b)[5..];
    }
  }

  // ---------------------------------------------------------------- creation

  /** The record `create_task` builds for `req` under id `taskId` at time `now`. */
  function NewRecord(req: TaskRequest, taskId: string, now: int): TaskRecord {
    var agent := Resolve(req.taskType);
    TaskRecord(taskId, req.description, req.taskType, agent,
               Execute(AGENTS[agent], req.description), "completed", now)
  }

  /** The response `create_task` returns when it succeeds. */
  function Created(req: TaskRequest, taskId: string): TaskResponse {
    TaskResponse(taskId, "completed", Some(Execute(AGENTS[Resolve(req.taskType)], req.description)))
  }

  /** The record as the JSON object `json.dumps` receives (keys in the source's order). */
  function Encode(r: TaskRecord): Json {
    JObj([("task_id", JStr(r.taskId)),
          ("task_description", JStr(r.description)),
          ("task_type", JStr(r.taskType)),
          ("agent", JStr(r.agent)),
          ("result", JStr(r.result)),
          ("status", JStr(r.status)),
          ("timestamp", JNum(r.timestamp))])
  }

  /** The stored record names the raw requested type, a registered agent and the completed status. */
  lemma NewRecordFacts(req: TaskRequest, taskId: string, now: int)
    ensures var r := NewRecord(req, taskId, now);
            && r.taskId == taskId && r.description == req.description
            && r.taskType == req.taskType && r.timestamp == now
            && r.agent in AGENTS && r.agent == Resolve(req.taskType)
            && r.status == "completed"
            && Contains(r.result, AGENTS[r.agent].name) && Contains(r.result, req.description)
            && Some(r.result) == Created(req, taskId).result
  {
    ExecuteMentions(AGENTS[Resolve(req.taskType)], req.description);
  }

  /** A request without a type is handled by the research agent, and its result says so. */
  lemma DefaultTypeFallsBack(description: string, taskId: string)
    ensures DEFAULT_TASK_TYPE !in AGENTS
    ensures Resolve(DEFAULT_TASK_TYPE) == "researcher"
    ensures Contains(Created(TaskRequest(description, DEFAULT_TASK_TYPE), taskId).result.value, "Research Agent")
  {
    ExecuteMentions(AGENTS["researcher"], description);
  }

  /** `POST /tasks` */
  method CreateTask(client: Redis.Store?, req: TaskRequest, taskId: string, now: int)
    returns (r: Result<TaskResponse, HttpError>)
    modifies client
    ensures client == null || client.outage.None? ==> r == Success(Created(req, taskId))
    ensures client != null && client.outage.Some? ==>
              r == Failure(HttpError(500, "Task execution failed: " + client.outage.value))
    ensures client != null ==> client.outage == old(client.outage)
    ensures client != null ==>
              client.entries == (if client.outage.Some? then old(client.entries)
                                 else Redis.Written(old(client.entries), TaskKey(taskId), TASK_TTL,
                                                    Dumps(Encode(NewRecord(req, taskId, now))), now))
  {
    if client != null {
      var taskData := NewRecord(req, taskId, now);
      var err := client.SetEx(TaskKey(taskId), TASK_TTL, Dumps(Encode(taskData)), now);
      if err.Some? {
        return Failure(HttpError(500, "Task execution failed: " + err.value));
      }
    }
    r := Success(Created(req, taskId));
  }

  // --------------------------------------------------------------- retrieval

  /** `str(e)` for each exception the generic handler of `get_task` catches. */
  function Describe(c: Cause): string {
    match c
    case TaskNotFound => "404: Task not found"
    case StoreError(message) => message
    case MissingKey(key) => "'" + key + "'"
    case NotSubscriptable => "object is not subscriptable"
    case NotUtf8 => "'utf-8' codec can't decode bytes"
    case InvalidField(field) => "validation error for TaskResponse: " + field
  }

  function Swallowed(c: Cause): HttpError {
    HttpError(500, "Error retrieving task: " + Describe(c))
  }

  /**
   * The response built from the loaded document: its id and status are
   * looked up by subscript (a missing one raises KeyError, id first), its
   * result by `get` (missing means none), and the response type then
   * insists that id and status are strings and result a string or null.
   */
  function ToResponse(doc: Json): (r: Result<TaskResponse, Cause>)
    ensures r.Success? ==> doc.JObj? && Field(doc.members, "task_id") == Some(JStr(r.value.taskId))
                           && Field(doc.members, "status") == Some(JStr(r.value.status))
    ensures r.Success? && r.value.result.Some? ==> Field(doc.members, "result") == Some(JStr(r.value.result.value))
    ensures r.Success? ==> (r.value.result.Some? <==>
                              Field(doc.members, "result").Some? && Field(doc.members, "result").value.JStr?)
    ensures doc.JObj? && Field(doc.members, "task_id").Some? && Field(doc.members, "task_id").value.JStr?
            && Field(doc.members, "status").Some? && Field(doc.members, "status").value.JStr?
            && (Field(doc.members, "result").None? || Field(doc.members, "result").value.JNull?
                || Field(doc.members, "result").value.JStr?)
            <==> r.Success?
    ensures doc.JObj? && Field(doc.members, "task_id").None? ==> r == Failure(MissingKey("task_id"))
  {
    if !doc.JObj? then Failure(NotSubscriptable)
    else
      var m := doc.members;
      match (Field(m, "task_id"), Field(m, "status"))
      case (None, _) => Failure(MissingKey("task_id"))
      case (_, None) => Failure(MissingKey("status"))
      case (Some(id), Some(status)) =>
        if !id.JStr? then Failure(InvalidField("task_id"))
        else if !status.JStr? then Failure(InvalidField("status"))
        else
          match Field(m, "result")
          case None => Success(TaskResponse(id.s, status.s, None))
          case Some(JNull) => Success(TaskResponse(id.s, status.s, None))
          case Some(JStr(result)) => Success(TaskResponse(id.s, status.s, Some(result)))
          case Some(_) => Failure(InvalidField("result"))
  }

  /** Decoding a stored record gives back its id, status and result. */
  lemma ToResponseEncode(r: TaskRecord)
    ensures ToResponse(Encode(r)) == Success(TaskResponse(r.taskId, r.status, Some(r.result)))
  {
    var m := Encode(r).members;
    FieldLastOccurrence(m, 0);
    FieldLastOccurrence(m, 4);
    FieldLastOccurrence(m, 5);
  }

  /**
   * What `get_task` answers, with a client present, given what `GET task:<id>` returned.
   * The 404 for a missing key is raised inside the `try` and so reaches the
   * caller as a 500 from the generic handler.
   */
  function Retrieval(stored: Result<Option<Blob>, string>): (r: Result<TaskResponse, HttpError>)
    ensures r.Failure? ==> r.error.status == 500
    ensures stored.Failure? ==> r == Failure(Swallowed(StoreError(stored.error)))
    ensures stored == Success(None) ==> r == Failure(Swallowed(TaskNotFound))
    ensures stored.Success? && stored.value.Some? && Empty(stored.value.value) ==>
              r == Failure(Swallowed(TaskNotFound))
    ensures stored.Success? && stored.value.Some? && stored.value.value.Dumped? ==>
              r == match ToResponse(stored.value.value.doc)
                   case Success(response) => Success(response)
                   case Failure(cause) => Failure(Swallowed(cause))
    ensures r.Success? ==> stored.Success? && stored.value.Some? && Loads(stored.value.value).Success?
    ensures stored.Success? && stored.value.Some? && stored.value.value.Text? && !Empty(stored.value.value) ==>
              r == Failure(HttpError(500, "Invalid task data"))
    ensures stored.Success? && stored.value.Some? && stored.value.value.Undecodable? && !Empty(stored.value.value) ==>
              r == Failure(Swallowed(NotUtf8))
  {
    match stored
    case Failure(message) => Failure(Swallowed(StoreError(message)))
    case Success(None) => Failure(Swallowed(TaskNotFound))
    case Success(Some(data)) =>
      if Empty(data) then Failure(Swallowed(TaskNotFound))
      else
        match Loads(data)
        case Failure(JsonDecodeError) => Failure(HttpError(500, "Invalid task data"))
        case Failure(UnicodeDecodeError) => Failure(Swallowed(NotUtf8))
        case Success(doc) =>
          match ToResponse(doc)
          case Success(response) => Success(response)
          case Failure(cause) => Failure(Swallowed(cause))
  }

  /** `GET /tasks/{task_id}` */
  method GetTask(client: Redis.Store?, taskId: string, now: int)
    returns (r: Result<TaskResponse, HttpError>)
    ensures client == null ==> r == Failure(HttpError(503, "Redis not available"))
    ensures client != null ==>
              r == Retrieval(Redis.Lookup(client.entries, client.outage, TaskKey(taskId), now))
  {
    if client == null {
      return Failure(HttpError(503, "Redis not available"));
    }
    var taskData := client.Get(TaskKey(taskId), now);
    r := Retrieval(taskData);
  }

  /**
   * Round trip: a task created at `now` reads back as the response its creation
   * returned for as long as the TTL runs, and as the swallowed 404 afterwards.
   */
  lemma CreateThenGet(entries: map<string, Redis.Entry>, req: TaskRequest, taskId: string,
                      now: int, later: int)
    requires now <= later
    ensures var stored := Redis.Written(entries, TaskKey(taskId), TASK_TTL,
                                        Dumps(Encode(NewRecord(req, taskId, now))), now);
            Retrieval(Redis.Lookup(stored, None, TaskKey(taskId), later))
            == if later < now + TASK_TTL then Success(Created(req, taskId))
               else Failure(Swallowed(TaskNotFound))
  {
    Redis.ReadAfterWrite(entries, TaskKey(taskId), TASK_TTL,
                         Dumps(Encode(NewRecord(req, taskId, now))), now, later);
    ToResponseEncode(NewRecord(req, taskId, now));
  }

  /** Creating a task under another id does not change what an earlier task id reads. */
  lemma CreateKeepsOtherTasks(entries: map<string, Redis.Entry>, req: TaskRequest, taskId: string,
                              now: int, otherId: string, outage: Option<string>, at: int)
    requires otherId != taskId
    ensures var stored := Redis.Written(entries, TaskKey(taskId), TASK_TTL,
                                        Dumps(Encode(NewRecord(req, taskId, now))), now);
            Redis.Lookup(stored, outage, TaskKey(otherId), at)
            == Redis.Lookup(entries, outage, TaskKey(otherId), at)
  {
    TaskKeyInjective(taskId, otherId);
    Redis.WriteIsolated(entries, TaskKey(taskId), TASK_TTL,
                        Dumps(Encode(NewRecord(req, taskId, now))), now, TaskKey(otherId), outage, at);
  }

  // ------------------------------------------------------- health and listings

  datatype Health = Health(status: string, redis: string, agentsAvailable: nat)

  /**
   * `GET /health`. The initial "connected" is overwritten whenever a client
   * exists, so the report is only ever "disconnected", "healthy" or "unhealthy".
   */
  method HealthCheck(client: Redis.Store?) returns (h: Health)
    ensures h.status == "healthy" && h.agentsAvailable == 3
    ensures h.redis == if client == null then "disconnected"
                       else if client.outage.None? then "healthy" else "unhealthy"
  {
    var redisStatus := if client != null then "connected" else "disconnected";
    if client != null {
      var err := client.Ping();
      redisStatus := if err.None? then "healthy" else "unhealthy";
    }
    RegistryKeysExact();
    h := Health("healthy", redisStatus, |AGENTS|);
  }

  datatype RootInfo = RootInfo(message: string, agents: seq<string>, redisConnected: bool)

  /** `GET /`: the service name, the registry keys and whether a client exists. */
  function Root(clientPresent: bool): (info: RootInfo)
    ensures info.message == "Simple Multi-Agent System API"
    ensures info.agents == AGENT_KEYS
    ensures |info.agents| == 3 && forall k :: k in info.agents <==> k in AGENTS
    ensures info.redisConnected == clientPresent
  {
    RegistryKeysExact();
    RootInfo("Simple Multi-Agent System API", AGENT_KEYS, clientPresent)
  }

  /** `GET /agents`: every registered agent's name, role and goal, once each, in registry order. */
  function ListAgents(): (listed: seq<Agent>)
    ensures |listed| == |AGENTS| == |AGENT_KEYS|
    ensures forall i :: 0 <= i < |listed| ==> listed[i] == AGENTS[AGENT_KEYS[i]]
    ensures forall k :: k in AGENTS ==> AGENTS[k] in listed
    ensures forall a :: a in listed ==> exists k :: k in AGENTS && AGENTS[k] == a
  {
    RegistryKeysExact();
    var listed := seq(|AGENT_KEYS|, i requires 0 <= i < |AGENT_KEYS| => AGENTS[AGENT_KEYS[i]]);
    assert listed[0] == AGENTS["researcher"] && listed[1] == AGENTS["writer"] && listed[2] == AGENTS["analyst"];
    listed
  }
}
