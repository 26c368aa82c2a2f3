# Completion tracking and result inspection for workflow jobs

The scripts in `inspire/` send a workflow to an image-generation server and
then wait for the job to finish. This project models their three pieces of
decision logic. Each network call is replaced by the value it returned.

- **Result inspector** (`get_show_any_value`, module `CheckCache`). It reads
  the value a "Show Any" node left in a job's history record. It takes the
  first element of the node's `text` list. It prefers the direct
  `outputs[node]['text']` shape over `outputs[node]['ui']['text']`, lowercases
  the value, and gives `None` for a missing or ill-shaped record. The history
  is whatever JSON value the server returned: null, a boolean, a string, a
  list or an object (numbers are not represented). Python's truth test,
  `x[k]`, `x[0]`, `x.get(k, d)` and `k in x` are modelled on each of these
  with the exceptions they raise (module `PyJson`), and the `try`/`except`
  is modelled on top of them. `ShowAnyAsWritten` is the code as written. `GetShowAnyValue` is the
  intended extractor (see Findings). `ShapeValue` is an independent reference
  definition of the extraction by record shape, proved equal to
  `GetShowAnyValue`.
- **Event-plus-history tracker** (`wait_for_prompt_completion`, method
  `CheckCache.WaitForPromptCompletion`). Its `while not is_completed` loop runs
  over a trace of `Round`s. Each round holds the elapsed time at the ceiling
  check, the WebSocket frame received, and whether a history poll finds the
  job. The method returns the final `is_completed`, which rounds polled the
  history, and what the single final history check reported.
- **Queue-snapshot tracker** (the polling loop of `queue_workflow`, method
  `WorkflowTrigger.TrackQueue`). It runs over a trace of `GET /queue`
  snapshots, each of which may be a failed poll. It is proved equal to the
  function `Track`. The lemmas about `Track` state the safety properties: the
  started flag, completion only after running, and Vanished kept apart from
  Completed.

Three facts about the code shape the model:

- `wait_for_prompt_completion` returns nothing and only logs. It has no
  Completed/TimedOut/Unknown status, so the model returns the final flag and
  the final check's report.
- `get_show_any_value` does not always return None on an ill-shaped history.
  Some shapes make it raise out of the function (Findings).
- The polling loop of `queue_workflow` has no overall timeout. It polls
  until Completed or Vanished.

## Model

| member | source | states |
|---|---|---|
| PyJson.GetItem | inspire/check_cache.py:79 | `x[key]` succeeds exactly on an object holding the key; otherwise KeyError (object) or TypeError |
| PyJson.FirstItem | inspire/check_cache.py:84 | `x[0]` succeeds exactly on a non-empty list (its head) or a non-empty string (its first character); otherwise IndexError (empty list or string), KeyError (dict) or TypeError (None, bool) |
| PyJson.Truthy | inspire/check_cache.py:74 | Python's truth test: None, False and an empty string, list or dict are false, every other value is true |
| PyJson.Get | inspire/check_cache.py:87 | `x.get(key, default)` succeeds exactly on an object, giving the entry or the default; otherwise AttributeError |
| PyJson.Contains | inspire/check_cache.py:83 | `key in x`: key test on objects, element test on lists, substring test on strings, TypeError on None and on the booleans |
| PyJson.HasSubstring | inspire/check_cache.py:83 | the left-to-right scan answers true exactly when the key occurs at some offset |
| PyJson.Lower | inspire/check_cache.py:97 | lowercasing keeps the length, maps each upper-case ASCII letter to its lower-case letter (code point + 32), keeps every other character, and leaves no upper-case letter |
| PyJson.LowerKeepsLowerCase | inspire/check_cache.py:97 | lowercasing a string without upper-case letters returns it unchanged |
| PyJson.LowerIdempotent | inspire/check_cache.py:97 | lowercasing twice is lowercasing once |
| CheckCache.Render | inspire/check_cache.py:97 | `str(value).lower()`: a string is lowercased, None becomes "none", True and False become "true" and "false", the result has no upper-case letter |
| CheckCache.ShowAnyBody | inspire/check_cache.py:79-97 | a record that is not an object is a TypeError; a returned value is lower-case; the only exception the `except` clause does not name is the AttributeError of `.get('ui', {})` on a node output that is a list or a string |
| CheckCache.TryBlock | inspire/check_cache.py:79-97 | `history[prompt_id]` is a TypeError on a non-dict and a KeyError on a dict without the id; otherwise the block is `ShowAnyBody` on the record (compared with the shape reference by `CheckCache.BodyMatchesShape`); a returned value is lower-case |
| CheckCache.IsCaught | inspire/check_cache.py:98 | the `except` clause catches every modelled exception except AttributeError (request failures never reach it) |
| CheckCache.HandlerLookup | inspire/check_cache.py:101 | the diagnostic lookup raises (always AttributeError) exactly when the history, the job's record or its `outputs` is present but not an object; when the node output exists, it returns it |
| CheckCache.ShowAnyAsWritten | inspire/check_cache.py:71-102 | None for a failed request, a false body or an object without the id; a returned value is lower-case; an escaping exception is AttributeError, or TypeError for a `true` body |
| CheckCache.GetShowAnyValue | inspire/check_cache.py:71-102 | None when the history is missing, not an object or lacks the id; any value returned is lower-case |
| CheckCache.BodyMatchesShape | inspire/check_cache.py:78-97 | the try block returns the reference value when it returns, and the reference gives None when it raises |
| CheckCache.ShowAnyMatchesShape | inspire/check_cache.py:73-102 | the extractor equals the shape-based reference definition on every history |
| CheckCache.DirectShapeWins | inspire/check_cache.py:83-85 | with a `text` entry in the node output its first element is the value, whatever `ui` holds |
| CheckCache.FallbackShape | inspire/check_cache.py:87-89 | without `text`, the first element of `ui.text` is the value when `ui` is an object holding `text` |
| CheckCache.ValueNeedsAShape | inspire/check_cache.py:83-94 | a value is returned only if the node output exists, one of the two shapes is present and its list is non-empty |
| CheckCache.NoShapeGivesNone | inspire/check_cache.py:90-94 | missing `outputs`, missing node or neither shape gives None, with nothing raised |
| CheckCache.EmptyTextsGiveNone | inspire/check_cache.py:98-102 | an empty chosen list (IndexError, caught) gives None |
| CheckCache.ResultIsLowerCase | inspire/check_cache.py:97 | lowercasing a returned value again changes nothing |
| CheckCache.AsWrittenAgreesUnlessRaised | inspire/check_cache.py:74-102 | where the code as written returns, it returns the intended value; where it raises, the exception is AttributeError (or the body was `true`) and the intended value is None |
| CheckCache.NullRecordEscapes | inspire/check_cache.py:98-102 | a null record makes the `except` clause's own lookup raise AttributeError out of the function |
| CheckCache.ListOutputEscapes | inspire/check_cache.py:87 | a list node output holding "ui" makes `outputs.get('ui', {})` raise an uncaught AttributeError |
| CheckCache.ListHistoryEscapes | inspire/check_cache.py:74-101 | a history body `["p"]` passes the id test, `history['p']` is a caught TypeError, and `history.get` in the handler raises AttributeError |
| CheckCache.TrueHistoryEscapes | inspire/check_cache.py:74 | a history body `true` passes `not history`, and `prompt_id in True` raises TypeError outside the `try` |
| CheckCache.ExecutingDone | inspire/check_cache.py:124-126 | the lookups raise only KeyError or TypeError (a non-object message is a TypeError); true only for a message of type `executing`; any other type is false without reading `data` |
| CheckCache.FrameCompletesIff | inspire/check_cache.py:121-128 | a frame completes exactly when it is an `executing` message whose data has this prompt id and a null node |
| CheckCache.WaitForPromptCompletion | inspire/check_cache.py:104-154 | completion iff a signal (event or history) came before the 300 s ceiling; the loop stops at the first signal; history is polled only in rounds the event did not complete; without completion the loop ended on the ceiling and exactly one final check is made, which does not change the flag |
| WorkflowTrigger.IdOf | inspire/inspire_workflow_trigger.py:65 | an item's id is what `item.get('prompt_id')` returns on that dict: the entry, or None when absent |
| WorkflowTrigger.AnyListed | inspire/inspire_workflow_trigger.py:65-66 | the scan raises only AttributeError; False means every item was scanned and each was an object; over a list of objects it does not raise |
| WorkflowTrigger.Listed | inspire/inspire_workflow_trigger.py:65-66 | a null or boolean listing is a TypeError; any exception is TypeError or AttributeError; True only for a list; a list of objects never raises |
| WorkflowTrigger.AnyListedMeansHasItem | inspire/inspire_workflow_trigger.py:65-66 | `any(...)` answers true only if some item carries the id and false only if none does; over a list of objects it never raises |
| WorkflowTrigger.Observe | inspire/inspire_workflow_trigger.py:58-66 | a failed request raises; a body that is not an object raises AttributeError at `.get`; a clean reading comes only from an object body |
| WorkflowTrigger.StillAbsent | inspire/inspire_workflow_trigger.py:87-94 | the short-circuit confirmation agrees with the full observation wherever that reads cleanly, and a confirmed absence is an absence the full observation also sees |
| WorkflowTrigger.ObserveClassifies | inspire/inspire_workflow_trigger.py:61-66 | on a well-formed snapshot the job is running or queued exactly when an item of that listing has its id; a missing listing counts as empty |
| WorkflowTrigger.Track | inspire/inspire_workflow_trigger.py:56-101 | the loop reads at most the snapshots it is given, and all of them when it is still polling |
| WorkflowTrigger.StartedNeverReset | inspire/inspire_workflow_trigger.py:69-71 | once `prompt_started` holds it still holds when the loop ends |
| WorkflowTrigger.SeenRunningSetsStarted | inspire/inspire_workflow_trigger.py:69-71 | a snapshot showing the job running sets `prompt_started`, polling goes on from the next snapshot, and the flag holds at the end |
| WorkflowTrigger.StartedAndAbsentCompletes | inspire/inspire_workflow_trigger.py:74-76 | with `prompt_started` set, a snapshot showing the job in neither list ends the loop as Completed after that one snapshot |
| WorkflowTrigger.StartedOnlyWhenSeenRunning | inspire/inspire_workflow_trigger.py:53 | `prompt_started` becomes true only if a snapshot the loop read showed the job running |
| WorkflowTrigger.CompletedOnlyAfterRunning | inspire/inspire_workflow_trigger.py:74-76 | Completed only with `prompt_started`, on a snapshot showing the job in neither list, after an earlier snapshot showed it running |
| WorkflowTrigger.VanishedNeverStarted | inspire/inspire_workflow_trigger.py:84-96 | Vanished only with `prompt_started` false throughout, after an absent snapshot confirmed by a second absent one |
| WorkflowTrigger.NeverRunningNeverCompletes | inspire/inspire_workflow_trigger.py:69-76 | a job no snapshot shows running is never reported Completed |
| WorkflowTrigger.KeepsWaitingWhilePresent | inspire/inspire_workflow_trigger.py:79-81 | while every snapshot shows the job running or queued the loop does not end |
| WorkflowTrigger.QueuedThenGoneVanishes | inspire/inspire_workflow_trigger.py:84-96 | a job seen only queued, then absent twice in a row, ends Vanished with `prompt_started` false |
| WorkflowTrigger.ReappearanceResumes | inspire/inspire_workflow_trigger.py:87-98 | if the confirming snapshot shows the job again, polling resumes with the next snapshot and the same flag |
| WorkflowTrigger.ConfirmationDoesNotRecordRunning | inspire/inspire_workflow_trigger.py:93-96 | a confirming snapshot that shows the job running does not set `prompt_started`, so a later double absence still ends Vanished |
| WorkflowTrigger.PollErrorRetries | inspire/inspire_workflow_trigger.py:99-101 | a failed poll neither ends the loop nor changes `prompt_started`; the next snapshot is read |
| WorkflowTrigger.TrackQueue | inspire/inspire_workflow_trigger.py:53-101 | the imperative loop ends with exactly the outcome, flag and snapshot count of `Track` |
| WorkflowTrigger.QueueWorkflow | inspire/inspire_workflow_trigger.py:45-103 | no tracking exactly when submission returned None or a false body; a true body that is not an object raises AttributeError at `response.get`; otherwise the job id is `response.get('prompt_id')` and the result is `Track` from a cleared flag |

## Findings

| source | as written | input that shows it | evidently intended | confidence | as-written member | corrected member |
|---|---|---|---|---|---|---|
| inspire/check_cache.py:98-102 | the `except` clause logs `history.get(prompt_id, {}).get('outputs', {}).get(node)`, which calls `.get` on a record or `outputs` that is not an object | history `{"p": null}`: `null['outputs']` is a TypeError, then `None.get` raises AttributeError out of the function | the function returns None ("catch every parse error") | high, not executed | CheckCache.NullRecordEscapes | CheckCache.GetShowAnyValue |
| inspire/check_cache.py:87 | `outputs.get('ui', {})` is evaluated inside the `try`, but AttributeError is not among the caught exceptions | node output `["ui"]`: `'text' in` is false, `'ui' in` is true, `list.get` raises AttributeError | the function returns None | high, not executed | CheckCache.ListOutputEscapes | CheckCache.GetShowAnyValue |
| inspire/check_cache.py:101 | the `except` clause calls `history.get`, which a list or string history does not have | history body `["p"]`: `'p' in` is true, `["p"]['p']` is a caught TypeError, then `list.get` raises AttributeError | the function returns None | medium (the server normally sends an object), not executed | CheckCache.ListHistoryEscapes | CheckCache.GetShowAnyValue |
| inspire/check_cache.py:74 | the guard `prompt_id not in history` runs before the `try` | history body `true`: `'p' in True` raises TypeError | the function returns None | low (the server normally sends an object), not executed | CheckCache.TrueHistoryEscapes | CheckCache.GetShowAnyValue |

`CheckCache.ShowAnyAsWritten` models the code as written.
`CheckCache.AsWrittenAgreesUnlessRaised` proves that the two extractors differ only where the code raises.

## Left out

- Address discovery (the public-IP lookup at import time) is left out. The server address does not enter the model.
- HTTP requests, WebSocket connect/receive/close and the `finally` close are I/O. They are replaced by their results: a `Round` per loop pass, the final history answer, `Poll` snapshots, and the submission response.
- `time.time` and `time.sleep` are left out. Elapsed time is a `real` supplied with each round.
- Logging, `setup_logging` and `print` are output only.
- Workflow file loading and JSON encoding are left out. The workflow never enters the decisions.
- The server-readiness loops are unbounded I/O retries with no result.
- `main` is left out. Its cache decision calls `IsCached.doit`, and `backend_support` is not part of this model. The missing-`prompt_id` path of `main` is therefore not modelled either.
- `queue_prompt`, `get_history` and `queue_workflow_simple` are thin HTTP wrappers. They appear only through their results.
- `PyJson.Json` has no numbers. A number chosen as the value would be rendered in decimal by `str()`, and a numeric job id would compare equal to a boolean in Python; neither is modelled.
- `PyJson.Lower` lowercases ASCII letters only. Python's `str.lower` is Unicode-aware.
- `CheckCache.Render`: a list or object chosen as the value gives no value. The source returns Python's repr of it, lowercased, and that rendering is not modelled.
- `CheckCache.WaitForPromptCompletion`: each history poll is a boolean. An odd history body that makes `prompt_id in history` raise is not modelled: inside the loop the outer `except` would end the loop, and in the final check after the loop (a body `true`) a TypeError would escape from the function; `finalHistoryHasId` cannot express either. The trace must reach the 300 s ceiling, which stands in for the wall clock always advancing.
- `WorkflowTrigger.TrackQueue`: the real loop may poll forever. The model reads a finite trace and reports StillPolling when the trace runs out.
