/**
 * The background-task manager: how the argument of an event handler is resolved (and the task
 * short-circuited to SKIP when the object's status is no longer supported), which handler
 * method an event selects, and how whatever the handler did is turned into the result message.
 *
 * Remote calls are parameters: `count(client, endpoint, filter)` is the size of the filtered
 * collection and `fetch(client, url)` the resource read. The handler's run is given as a
 * `RawOutcome`, with the clock readings taken around it.
 */
module Background {
  import opened Wrappers
  import opened Strings
  import opened Templates
  import opened Proto

  /** Python's `KeyError(key)`, raised by a dictionary lookup or a template placeholder. */
  datatype Error = KeyError(key: string)

  /** The identity and configuration requests are made with. */
  datatype Client = Client(apiKey: string, endpoint: string, useSpecs: bool, defaultHeaders: map<string, string>)

  /** Where an event's objects live and how to select the ones in a supported status. */
  datatype EventDefinition = EventDefinition(
    apiCollectionEndpoint: string,
    apiCollectionFilter: Template,
    apiResourceEndpoint: Template)

  datatype Config = Config(apiUrl: string, userAgent: map<string, string>, eventDefinitions: map<string, EventDefinition>)

  /** The extension's entry for one event type: the method to call and the statuses it handles. */
  datatype EventHandler = EventHandler(methodName: string, statuses: seq<string>)

  /** The manager's fixed state: configuration, the extension's events and the default client. */
  datatype Manager = Manager(config: Config, events: map<string, EventHandler>, client: Client)

  /** A remote call the manager issues. */
  datatype Request =
    | CountRequest(client: Client, endpoint: string, filter: string)
    | GetRequest(client: Client, url: string)

  /** What argument resolution ends with: an error, a SKIP response to deliver instead, or the argument. */
  datatype Resolution<R> = Failed(error: Error) | ShortCircuit(skip: ProcessingResponse) | Argument(resource: R)

  /** How the awaited handler call ended: with a response (and the clock reading after it), or by raising. */
  datatype RawOutcome = Completed(response: ProcessingResponse, endTs: real) | Raised(trace: string)

  const StatusesPlaceholder: string := "_statuses_"
  const ObjectIdPlaceholder: string := "_object_id_"
  const PkPlaceholder: string := "pk"
  const SkipMessagePrefix: string := "The request status does not match the supported statuses: "
  const MaxMessageLength: nat := 4000
  /** The countdown `ProcessingResponse.skip` leaves in place; it is never read on the SKIP path. */
  const DefaultCountdown: int := 30

  /** Which handler method an event type selects; `KeyError` for an event the extension lacks. */
  function GetMethodName(m: Manager, task: Task): (r: Result<string, Error>)
    ensures r.Success? <==> task.input.eventType in m.events
    ensures r.Success? ==> r.value == m.events[task.input.eventType].methodName
    ensures r.Failure? ==> r.error == KeyError(task.input.eventType)
  {
    if task.input.eventType in m.events then Success(m.events[task.input.eventType].methodName)
    else Failure(KeyError(task.input.eventType))
  }

  /** Python truthiness of the task's API key: present and not the empty string. */
  predicate HasScopedKey(options: TaskOptions): (r: bool)
    ensures options.apiKey == None ==> !r
    ensures options.apiKey == Some("") ==> !r
    ensures options.apiKey.Some? && options.apiKey.value != "" ==> r
  {
    options.apiKey.Some? && options.apiKey.value != ""
  }

  /** A client bound to a task's own key; endpoint and headers come from the configuration. */
  function ScopedClient(config: Config, apiKey: string): (c: Client)
    ensures c.apiKey == apiKey && c.endpoint == config.apiUrl && !c.useSpecs && c.defaultHeaders == config.userAgent
  {
    Client(apiKey, config.apiUrl, false, config.userAgent)
  }

  /** The supported statuses as a filter value: parenthesised and comma-separated. */
  function StatusList(statuses: seq<string>): (r: string)
    ensures |r| == |Join(",", statuses)| + 2
    ensures r[0] == '(' && r[|r| - 1] == ')' && r[1..|r| - 1] == Join(",", statuses)
  {
    "(" + Join(",", statuses) + ")"
  }

  function FilterMapping(statuses: seq<string>, objectId: string): (m: map<string, string>)
    ensures m.Keys == {StatusesPlaceholder, ObjectIdPlaceholder}
    ensures m[StatusesPlaceholder] == StatusList(statuses) && m[ObjectIdPlaceholder] == objectId
  {
    map[StatusesPlaceholder := StatusList(statuses), ObjectIdPlaceholder := objectId]
  }

  /** The collection filter of an event definition with the statuses and the object id filled in. */
  function RenderFilter(filter: Template, statuses: seq<string>, objectId: string): (r: Result<string, string>)
    ensures r.Success? <==> Holes(filter) <= {StatusesPlaceholder, ObjectIdPlaceholder}
    ensures r.Failure? ==> r.error in Holes(filter) && r.error !in {StatusesPlaceholder, ObjectIdPlaceholder}
  {
    Substitute(filter, FilterMapping(statuses, objectId))
  }

  /**
   * In the rendered filter every segment is replaced where it stands: literal text verbatim,
   * the statuses placeholder by "(" + the comma-joined statuses + ")", and the object id
   * placeholder by the object id exactly.
   */
  lemma RenderFilterAt(filter: Template, statuses: seq<string>, objectId: string, k: nat)
    requires RenderFilter(filter, statuses, objectId).Success?
    requires k < |filter|
    ensures RenderFilter(filter[..k], statuses, objectId).Success?
    ensures RenderFilter(filter[k + 1..], statuses, objectId).Success?
    ensures var before, after := RenderFilter(filter[..k], statuses, objectId).value,
                                 RenderFilter(filter[k + 1..], statuses, objectId).value;
            var whole := RenderFilter(filter, statuses, objectId).value;
            && (filter[k].Lit? ==> whole == before + filter[k].text + after)
            && (filter[k] == Hole(StatusesPlaceholder) ==> whole == before + "(" + Join(",", statuses) + ")" + after)
            && (filter[k] == Hole(ObjectIdPlaceholder) ==> whole == before + objectId + after)
  {
    var mapping := FilterMapping(statuses, objectId);
    SubstituteAt(filter, mapping, k);
    var piece := SegmentText(filter[k], mapping);
    assert StatusList(statuses) == "(" + Join(",", statuses) + ")";
    assert filter[k] == Hole(StatusesPlaceholder) ==> piece == StatusList(statuses);
    assert filter[k] == Hole(ObjectIdPlaceholder) ==> piece == objectId;
  }

  /** A filter without placeholders is sent exactly as written. */
  lemma RenderFilterNoHoles(filter: Template, statuses: seq<string>, objectId: string)
    requires Holes(filter) == {}
    ensures RenderFilter(filter, statuses, objectId) == Success(LiteralText(filter))
  {
    SubstituteNoHoles(filter, FilterMapping(statuses, objectId));
  }

  /** The explanation sent when the object's status is not among the supported ones:
      the fixed prefix, then the comma-joined statuses, then a full stop. */
  function SkipMessage(statuses: seq<string>): (msg: string)
    ensures |msg| == |SkipMessagePrefix| + |Join(",", statuses)| + 1
    ensures msg[..|SkipMessagePrefix|] == SkipMessagePrefix
    ensures msg[|SkipMessagePrefix|..|msg| - 1] == Join(",", statuses)
    ensures msg[|msg| - 1] == '.'
  {
    SkipMessagePrefix + Join(",", statuses) + "."
  }

  /** Each supported status occurs in the skip message. */
  lemma SkipMessageNamesStatuses(statuses: seq<string>, i: nat)
    requires i < |statuses|
    ensures exists k :: OccursAt(statuses[i], SkipMessage(statuses), k)
  {
    var joined := Join(",", statuses);
    var msg := SkipMessage(statuses);
    var p := |SkipMessagePrefix|;
    var k := JoinContains(",", statuses, i);
    assert msg[p + k..p + k + |statuses[i]|] == joined[k..k + |statuses[i]|];
    assert OccursAt(statuses[i], msg, p + k);
  }

  /**
   * When no status contains a comma, splitting the part of the skip message between the
   * prefix and the full stop on commas gives the statuses back, in order.
   */
  lemma SkipMessageListsStatuses(statuses: seq<string>)
    requires |statuses| > 0
    requires forall i :: 0 <= i < |statuses| ==> ',' !in statuses[i]
    ensures Split(SkipMessage(statuses)[|SkipMessagePrefix|..|SkipMessage(statuses)| - 1], ',') == statuses
  {
    SplitJoin(statuses, ',');
  }

  /** The resource URL of an event definition with `{pk}` set to the object id. */
  function ResourceUrl(endpoint: Template, objectId: string): (r: Result<string, string>)
    ensures r.Success? <==> Holes(endpoint) <= {PkPlaceholder}
    ensures r.Failure? ==> r.error in Holes(endpoint) && r.error != PkPlaceholder
  {
    Substitute(endpoint, map[PkPlaceholder := objectId])
  }

  /**
   * In the resource URL every segment is replaced where it stands: literal text verbatim and
   * the `pk` placeholder by the object id exactly.
   */
  lemma ResourceUrlAt(endpoint: Template, objectId: string, k: nat)
    requires ResourceUrl(endpoint, objectId).Success?
    requires k < |endpoint|
    ensures ResourceUrl(endpoint[..k], objectId).Success?
    ensures ResourceUrl(endpoint[k + 1..], objectId).Success?
    ensures var before, after := ResourceUrl(endpoint[..k], objectId).value, ResourceUrl(endpoint[k + 1..], objectId).value;
            var whole := ResourceUrl(endpoint, objectId).value;
            && (endpoint[k].Lit? ==> whole == before + endpoint[k].text + after)
            && (endpoint[k] == Hole(PkPlaceholder) ==> whole == before + objectId + after)
  {
    SubstituteAt(endpoint, map[PkPlaceholder := objectId], k);
  }

  /** `ProcessingResponse.skip(output)`: the response the short-circuit path delivers. */
  function SkipResponse(output: string): (r: ProcessingResponse)
    ensures r.status == SKIP && r.output == Some(output)
  {
    ProcessingResponse(SKIP, Some(output), DefaultCountdown)
  }

  /**
   * Argument resolution. The client is the default one unless the task carries a non-empty
   * API key; the event's definition and statuses are looked up (`KeyError` if missing); the
   * filter is rendered and the collection counted. A count of zero short-circuits to a SKIP
   * response naming the statuses, without fetching; otherwise the resource URL is built with
   * `pk` set to the object id and the resource fetched. `requests` lists the remote calls made.
   */
  method GetArgument<R>(m: Manager, task: Task, count: (Client, string, string) -> int, fetch: (Client, string) -> R)
    returns (res: Resolution<R>, requests: seq<Request>)
    ensures forall i :: 0 <= i < |requests| ==>
              requests[i].client == if HasScopedKey(task.options) then ScopedClient(m.config, task.options.apiKey.value) else m.client
    ensures task.input.eventType !in m.config.eventDefinitions || task.input.eventType !in m.events ==>
              res == Failed(KeyError(task.input.eventType)) && requests == []
    ensures task.input.eventType in m.config.eventDefinitions && task.input.eventType in m.events ==>
              var definition := m.config.eventDefinitions[task.input.eventType];
              var statuses := m.events[task.input.eventType].statuses;
              var filter := RenderFilter(definition.apiCollectionFilter, statuses, task.input.objectId);
              && (filter.Failure? ==> res == Failed(KeyError(filter.error)) && requests == [])
              && (filter.Success? ==>
                    && |requests| >= 1
                    && requests[0] == CountRequest(requests[0].client, definition.apiCollectionEndpoint, filter.value)
                    && (res.ShortCircuit? <==> count(requests[0].client, definition.apiCollectionEndpoint, filter.value) == 0)
                    && (res.ShortCircuit? ==> requests == [requests[0]] && res.skip == SkipResponse(SkipMessage(statuses))))
              && (filter.Success? && count(requests[0].client, definition.apiCollectionEndpoint, filter.value) != 0 ==>
                    var url := ResourceUrl(definition.apiResourceEndpoint, task.input.objectId);
                    && (url.Failure? ==> res == Failed(KeyError(url.error)) && |requests| == 1)
                    && (url.Success? ==>
                          && |requests| == 2
                          && requests[1] == GetRequest(requests[1].client, url.value)
                          && res == Argument(fetch(requests[1].client, url.value))))
  {
    var client := m.client;
    if HasScopedKey(task.options) {
      client := ScopedClient(m.config, task.options.apiKey.value);
    }
    var eventType := task.input.eventType;
    if eventType !in m.config.eventDefinitions {
      return Failed(KeyError(eventType)), [];
    }
    var definition := m.config.eventDefinitions[eventType];
    if eventType !in m.events {
      return Failed(KeyError(eventType)), [];
    }
    var statuses := m.events[eventType].statuses;
    var filter := RenderFilter(definition.apiCollectionFilter, statuses, task.input.objectId);
    if filter.Failure? {
      return Failed(KeyError(filter.error)), [];
    }
    requests := [CountRequest(client, definition.apiCollectionEndpoint, filter.value)];
    if count(client, definition.apiCollectionEndpoint, filter.value) == 0 {
      res := ShortCircuit(SkipResponse(SkipMessage(statuses)));
      return;
    }
    var url := ResourceUrl(definition.apiResourceEndpoint, task.input.objectId);
    if url.Failure? {
      return Failed(KeyError(url.error)), requests;
    }
    requests := requests + [GetRequest(client, url.value)];
    res := Argument(fetch(client, url.value));
  }

  /**
   * The output a handler's run yields. A completed run reports the handler's status and the
   * time it took; SKIP and FAIL carry the handler's output text and only they carry a message;
   * only RESCHEDULE carries the handler's countdown. A run that raised (a timeout included) is
   * RETRY with the trace cut to 4000 characters, and no runtime or countdown.
   */
  function Classify(beginTs: real, outcome: RawOutcome): (out: TaskOutput)
    ensures outcome.Completed? ==>
              out.result == outcome.response.status && out.runtime == Some(outcome.endTs - beginTs)
    ensures outcome.Completed? && beginTs <= outcome.endTs ==> out.runtime.value >= 0.0
    ensures outcome.Completed? && outcome.response.status in {SKIP, FAIL} ==> out.message == outcome.response.output
    ensures outcome.Completed? && outcome.response.status !in {SKIP, FAIL} ==> out.message == None
    ensures out.countdown.Some? <==> outcome.Completed? && outcome.response.status == RESCHEDULE
    ensures out.countdown.Some? ==> out.countdown.value == outcome.response.countdown
    ensures outcome.Raised? ==> out.result == RETRY && out.countdown == None && out.runtime == None
    ensures outcome.Raised? ==>
              && out.message.Some?
              && |out.message.value| == (if |outcome.trace| <= MaxMessageLength then |outcome.trace| else MaxMessageLength)
              && out.message.value == outcome.trace[..|out.message.value|]
  {
    match outcome
    case Completed(response, endTs) =>
      TaskOutput(
        response.status,
        if response.status in {SKIP, FAIL} then response.output else None,
        if response.status == RESCHEDULE then Some(response.countdown) else None,
        Some(endTs - beginTs))
    case Raised(trace) =>
      TaskOutput(RETRY, Some(Truncate(trace, MaxMessageLength)), None, None)
  }

  /**
   * Builds the result message: a copy of the task whose output is replaced by the
   * classification of the handler's run; every other field is the task's own.
   */
  method BuildResponse(task: Task, beginTs: real, outcome: RawOutcome) returns (message: Task)
    ensures message.options == task.options && message.input == task.input
    ensures message.output == Some(Classify(beginTs, outcome))
  {
    message := task;
    match outcome {
      case Completed(response, endTs) =>
        var output := TaskOutput(response.status, None, None, None);
        output := output.(runtime := Some(endTs - beginTs));
        if response.status == SKIP || response.status == FAIL {
          output := output.(message := response.output);
        }
        if response.status == RESCHEDULE {
          output := output.(countdown := Some(response.countdown));
        }
        message := message.(output := Some(output));
      case Raised(trace) =>
        var output := TaskOutput(RETRY, None, None, None);
        output := output.(message := Some(Truncate(trace, MaxMessageLength)));
        message := message.(output := Some(output));
    }
  }

  /**
   * A short-circuited task, once its SKIP response is classified, is SKIP with exactly the
   * skip message and no countdown; like any completed run it carries a runtime.
   */
  lemma ShortCircuitOutput(statuses: seq<string>, beginTs: real, endTs: real)
    ensures var out := Classify(beginTs, Completed(SkipResponse(SkipMessage(statuses)), endTs));
            && out.result == SKIP && out.message == Some(SkipMessage(statuses)) && out.countdown == None
            && out.runtime == Some(endTs - beginTs)
  {
  }

  /** The message for a single supported status "pending". */
  lemma PendingSkipMessage()
    ensures SkipMessage(["pending"]) == "The request status does not match the supported statuses: pending."
  {
  }
}
