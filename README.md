# Background task result engine of the Connect extension runner

This project models `BackgroundTasksManager` of the Connect EaaS extension runner in Dafny and proves properties of the model. The manager handles background events, for example a request changing status. For each task it does three things:

- it resolves the handler's argument: it counts the event's collection through a filter built from the handler's supported statuses and the task's object id; if nothing matches, it short-circuits to a SKIP response, and otherwise it fetches the object;
- it selects the handler method the event type names;
- it turns whatever the handler did into the task's result message. A completed run keeps its status and runtime, a message for SKIP/FAIL and a countdown for RESCHEDULE. An exception or a timeout becomes RETRY with a truncated trace.

Files and modules:

- `Wrappers.dfy`: `Option` and `Result`.
- `Strings.dfy`: `Join` (Python `sep.join`), its inverse `Split`, and `Truncate` (slice `s[:n]`).
- `Templates.dfy`: templates with named placeholders, already split into literal and placeholder segments. `Substitute` fills them from a mapping and fails with the first missing name, like Python's `KeyError`. Both `string.Template.substitute` and `str.format(pk=...)` are modelled by it.
- `Proto.dfy`: the task message, its output, `ResultType` and `ProcessingResponse`, with only the fields the manager uses.
- `Background.dfy`: the manager's operations.

The manager's configuration, its extension's event table and its default client never change, so the manager is a value (`Manager`). Remote calls are function parameters: `count(client, endpoint, filter)` and `fetch(client, url)`. `GetArgument` also returns the list of requests it made, so the model can state which client was used and that the skip path never fetches. The handler's run is a `RawOutcome`: `Completed(response, endTs)` or `Raised(trace)`, where a timeout is a `Raised`. The clock reading taken before the run is a parameter.

Behaviour of `build_response` worth noting:

- A SKIP returned by the handler carries a message, its output, just as FAIL does (background.py:87-88).
- A RETRY status returned normally by the handler carries a runtime and no message; only a raised run gets the trace message (background.py:81-82, 94-95).
- On a raised run or a timeout the runtime is not set (background.py:94-95).
- The timer covers only the awaited handler call; argument resolution is outside it (background.py:76-77).

## Model

| member | source | states |
|---|---|---|
| Background.GetMethodName | connect/eaas/runner/managers/background.py:25-26 | the method is the event table's `method` for the task's event type exactly when the type is in the table; otherwise `KeyError(event type)` |
| Background.HasScopedKey | connect/eaas/runner/managers/background.py:34 | the task's API key selects its own client exactly as Python truthiness does: never for `None` or `""`, always for a non-empty key |
| Background.ScopedClient | connect/eaas/runner/managers/background.py:35-40 | the scoped client carries the task's key, the configured API URL, `use_specs` false and the configured user-agent headers |
| Background.StatusList | connect/eaas/runner/managers/background.py:46 | the statuses value is "(", the comma-joined statuses, then ")" |
| Background.FilterMapping | connect/eaas/runner/managers/background.py:44-49 | the substitution mapping has exactly the two placeholders `_statuses_` and `_object_id_`, bound to "(" + comma-joined statuses + ")" and to the object id |
| Background.RenderFilter | connect/eaas/runner/managers/background.py:44-49 | rendering the filter succeeds iff it has no placeholder other than `_statuses_` and `_object_id_`; on failure the error names a placeholder of the template that is neither |
| Background.RenderFilterAt | connect/eaas/runner/managers/background.py:44-49 | in the rendered filter each segment is replaced in place: literals verbatim, `_statuses_` by "(" + join(",", statuses) + ")", `_object_id_` by the object id verbatim, with the renderings of the segments before and after on either side |
| Background.RenderFilterNoHoles | connect/eaas/runner/managers/background.py:44-49 | a filter without placeholders is sent exactly as written, whatever the statuses and object id |
| Background.SkipMessage | connect/eaas/runner/managers/background.py:59-60 | the skip message is "The request status does not match the supported statuses: ", then the comma-joined statuses, then "." |
| Background.SkipMessageNamesStatuses | connect/eaas/runner/managers/background.py:57-61 | every supported status occurs in the skip message |
| Background.SkipMessageListsStatuses | connect/eaas/runner/managers/background.py:57-61 | for a non-empty list of comma-free statuses, splitting the listed part of the skip message on commas gives back the statuses in order |
| Background.PendingSkipMessage | connect/eaas/runner/managers/background.py:57-61 | with the single status "pending" the message is "The request status does not match the supported statuses: pending." |
| Background.ResourceUrl | connect/eaas/runner/managers/background.py:64 | formatting the resource endpoint with `pk` succeeds iff it has no placeholder other than `pk`; otherwise the error names another placeholder of the template |
| Background.ResourceUrlAt | connect/eaas/runner/managers/background.py:64 | in the resource URL each segment is replaced in place: literals verbatim and `{pk}` by the object id verbatim, between the renderings of the segments before and after |
| Background.SkipResponse | connect/eaas/runner/managers/background.py:99-102 | the fire-and-forget skip delivers a response with status SKIP whose output is the given message |
| Background.GetArgument | connect/eaas/runner/managers/background.py:28-67 | every request uses the task's own non-empty API key (a client with the configured endpoint and user agent and `use_specs` false) or else the default client. A missing event definition or event entry is `KeyError` with no request. A bad filter placeholder is `KeyError` with no request. Otherwise the first request counts the event's collection through the rendered filter, and the result short-circuits iff that count is 0. The short circuit makes no other request and carries the SKIP response with the skip message. Otherwise the single further request gets the resource URL formatted with `pk` = object id, the fetched resource is the argument, and a bad URL placeholder is `KeyError` |
| Background.Classify | connect/eaas/runner/managers/background.py:76-95 | a completed run reports the handler's status and runtime end − begin, which is ≥ 0 for a monotonic clock. The message is the handler's output for SKIP/FAIL and absent for every other status. The countdown is present iff the status is RESCHEDULE, and then it is the handler's countdown. A raised run or a timeout is RETRY with no runtime and no countdown, and its message is the trace's first min(len, 4000) characters |
| Background.BuildResponse | connect/eaas/runner/managers/background.py:69-97 | the result message keeps the task's options and input and always has one output, the classification of the run |
| Background.ShortCircuitOutput | connect/eaas/runner/managers/background.py:52-62 | the short-circuit SKIP response, once classified, is SKIP with exactly the skip message, no countdown, and a runtime of end − begin like any completed run |
| Templates.Substitute | connect/eaas/runner/managers/background.py:44-49 | substitution succeeds iff every placeholder of the template is in the mapping; otherwise it reports a missing placeholder that occurs in the template and is preceded only by present ones (the first missing, as `KeyError`) |
| Templates.SubstituteAppend | connect/eaas/runner/managers/background.py:44-49 | substituting into a concatenation of templates is the concatenation of the substitutions |
| Templates.SubstituteAt | connect/eaas/runner/managers/background.py:44-49 | each segment's text appears in place between the substitutions of the segments before and after it |
| Templates.SubstituteNoHoles | connect/eaas/runner/managers/background.py:44-49 | a template without placeholders substitutes to its literal text under any mapping |
| Templates.SubstituteUsesOnlyHoles | connect/eaas/runner/managers/background.py:44-49 | two mappings that agree on the template's placeholders give the same result |
| Strings.SplitJoin | connect/eaas/runner/managers/background.py:46 | `",".join` of a non-empty list of comma-free strings splits back into that list |
| Strings.JoinContains | connect/eaas/runner/managers/background.py:60 | every element of a joined list occurs in the joined string |
| Strings.Join | connect/eaas/runner/managers/background.py:46 | `sep.join(xs)` is "" for an empty list, the element itself for one element, and always begins with the first element |
| Strings.Truncate | connect/eaas/runner/managers/background.py:95 | `s[:n]` is the prefix of `s` of length min(len(s), n), and `s` itself when it is no longer than `n` |

## Left out

- Asynchrony and timing: `asyncio.wait_for`, the background timeout value, `time.monotonic`, futures and `asyncio.create_task`. A timeout is a `Raised` outcome and the two clock readings are inputs. The detached delivery of the skip response is modelled as returning that response.
- The HTTP client classes `AsyncConnectClient`, `AsyncCollection` and `AsyncResource`. Counting and fetching are function parameters, and transport errors raised by them are not modelled.
- Logging, `log_exception` and the content of `traceback.format_exc()`. The trace is an opaque string; only its truncation is modelled.
- Full `string.Template` and `str.format` parsing: the `$$` and `{{` escapes, format specifications, positional fields and the `ValueError` for malformed templates. Templates are given already split into segments.
- `TasksManagerBase` (including `enqueue_result`) and the handler's method invocation are not part of this model. The `connect.eaas.core` record definitions are outside this model; `Proto` models them with only the fields used here, and a field left unset (such as `TaskOutput`'s message, countdown or runtime) is modelled as `None`, since the records' field defaults are outside this model too. `ShortCircuitOutput` assumes that `enqueue_result` passes the skip response to `build_response`.
- Background.SkipResponse: its countdown is a placeholder value (30), because `ProcessingResponse`'s default countdown is outside this model; the SKIP path never reads the countdown.
- `BaseException`s that `except Exception` does not catch, such as cancellation, escape `build_response`; the model has no outcome for them.
- Background.GetMethodName: the `argument` parameter of `get_method_name` is unused by the source and is not a parameter of the model.
- Background.Classify: the runtime is the exact `real` difference of the two clock readings; the floating-point rounding of `time.monotonic() - begin_ts` is not modelled, and nothing here depends on it.
- Event entries (the `EventHandler` record): an entry always has a method name and a list of statuses, so the `KeyError('method')` or `KeyError('statuses')` a malformed entry would raise at background.py:26 and :43 is not modelled.
