/**
 * The completion tracking of inspire/inspire_workflow_trigger.py
 * (queue_workflow): after submitting a workflow, poll the server's queue
 * listing and classify the job as running, queued or absent, until it is
 * seen to finish (Completed) or to disappear without ever running
 * (Vanished). Each `GET /queue` is replaced by the snapshot it returned.
 */
module WorkflowTrigger {
  import opened PyJson

  /** One `GET /queue` and its `.json()`: the decoded body, or a failure
      that raises inside the polling `try`. */
  datatype Poll = Fetched(body: Json) | PollFailed

  /** The job's place in one snapshot. */
  datatype Presence = Presence(running: bool, queued: bool)

  /** How the polling loop ended. StillPolling: the trace of snapshots ran
      out while the loop was still waiting. */
  datatype Outcome = Completed | Vanished | StillPolling

  /** The outcome, the final `prompt_started` flag and the number of
      snapshots read. */
  datatype Verdict = Verdict(outcome: Outcome, started: bool, consumed: nat)

  /** `item.get('prompt_id')`: the item's id, None when it has none. */
  function IdOf(item: map<string, Json>): (id: Json)
    ensures Get(JObj(item), "prompt_id", JNull) == Ok(id)
  {
    if "prompt_id" in item then item["prompt_id"] else JNull
  }

  /** `any(item.get('prompt_id') == prompt_id for item in xs)` over a list:
      the items are tried in order and the first match stops the scan; an
      item that is not an object has no `get` (AttributeError). */
  function AnyListed(xs: seq<Json>, promptId: Json): (r: Py<bool>)
    ensures r.Raise? ==> r.exc == AttributeError
    // False only after every item was scanned, and each was an object
    ensures r == Ok(false) ==> forall k :: 0 <= k < |xs| ==> xs[k].JObj?
    ensures (forall k :: 0 <= k < |xs| ==> xs[k].JObj?) ==> r.Ok?
  {
    if xs == [] then Ok(false)
    else
      var id :- Get(xs[0], "prompt_id", JNull);
      var r := if id == promptId then Ok(true) else AnyListed(xs[1..], promptId);
      assert r == Ok(false) ==> forall k :: 1 <= k < |xs| ==> xs[k] == xs[1..][k - 1];
      r
  }

  /** The same `any(...)` over whatever JSON value the listing holds.
      Iterating an object yields its keys and iterating a string its
      characters, strings without `get`, so only an empty one gives False;
      `None` and the booleans are not iterable. */
  function Listed(items: Json, promptId: Json): (r: Py<bool>)
    ensures items.JNull? || items.JBool? ==> r == Raise(TypeError)
    ensures r.Raise? ==> r.exc == TypeError || r.exc == AttributeError
    ensures r == Ok(true) ==> items.JList?
    ensures ObjectList(items) ==> r.Ok?
  {
    match items
    case JList(xs) => AnyListed(xs, promptId)
    case JObj(m) => if m == map[] then Ok(false) else Raise(AttributeError)
    case JStr(s) => if s == [] then Ok(false) else Raise(AttributeError)
    case _ => Raise(TypeError)
  }

  /** Some item of the list is an object whose id equals `promptId`. */
  ghost predicate HasItemWithId(xs: seq<Json>, promptId: Json) {
    exists k :: 0 <= k < |xs| && xs[k].JObj? && IdOf(xs[k].fields) == promptId
  }

  /** The scan answers True exactly when some item has the id, provided it
      does not stop on a non-object item first; over a list of objects it
      never raises. */
  lemma {:induction false} AnyListedMeansHasItem(xs: seq<Json>, promptId: Json)
    ensures AnyListed(xs, promptId) == Ok(true) ==> HasItemWithId(xs, promptId)
    ensures AnyListed(xs, promptId) == Ok(false) ==> !HasItemWithId(xs, promptId)
    ensures (forall k :: 0 <= k < |xs| ==> xs[k].JObj?) ==>
              AnyListed(xs, promptId) == Ok(HasItemWithId(xs, promptId))
  {
    if xs != [] {
      AnyListedMeansHasItem(xs[1..], promptId);
      assert forall k :: 1 <= k < |xs| ==> xs[k] == xs[1..][k - 1];
      if HasItemWithId(xs[1..], promptId) {
        var k :| 0 <= k < |xs[1..]| && xs[1..][k].JObj? && IdOf(xs[1..][k].fields) == promptId;
        assert xs[k + 1] == xs[1..][k];
      }
      if xs[0].JObj? && IdOf(xs[0].fields) == promptId {
        assert HasItemWithId(xs, promptId);
      }
    }
  }

  /** Lines `running_items = queue_data.get('running_items', [])` to
      `is_queued = any(...)`: both listings are read (a missing one is
      empty), then both membership tests run. */
  function Observe(poll: Poll, promptId: Json): (r: Py<Presence>)
    ensures poll.PollFailed? ==> r == Raise(RequestError)
    ensures poll.Fetched? && !poll.body.JObj? ==> r == Raise(AttributeError)
    ensures r.Ok? ==> poll.Fetched? && poll.body.JObj?
  {
    match poll
    case PollFailed => Raise(RequestError)
    case Fetched(body) =>
      var runningItems :- Get(body, "running_items", JList([]));
      // the first `.get` succeeded, so the body is a dict and this one does too
      var queueItems := Get(body, "queue_items", JList([])).value;
      var isRunning :- Listed(runningItems, promptId);
      var isQueued :- Listed(queueItems, promptId);
      Ok(Presence(isRunning, isQueued))
  }

  /** The confirming snapshot taken when the job was never seen running and
      is absent: `not any(running) and not any(queued)`, with Python's
      short-circuit (the queued list is not scanned when the job runs). */
  function StillAbsent(poll: Poll, promptId: Json): (r: Py<bool>)
    ensures poll.PollFailed? ==> r == Raise(RequestError)
    // where the full observation reads cleanly, the same answer
    ensures Observe(poll, promptId).Ok? ==>
              r == Ok(!Observe(poll, promptId).value.running && !Observe(poll, promptId).value.queued)
    // a confirmed absence is an absence the full observation also sees
    ensures r == Ok(true) ==> SeenAbsent(poll, promptId)
  {
    match poll
    case PollFailed => Raise(RequestError)
    case Fetched(body) =>
      var runningItems :- Get(body, "running_items", JList([]));
      // the first `.get` succeeded, so the body is a dict and this one does too
      var queueItems := Get(body, "queue_items", JList([])).value;
      var isRunning :- Listed(runningItems, promptId);
      if isRunning then Ok(false)
      else
        var isQueued :- Listed(queueItems, promptId);
        Ok(!isQueued)
  }

  /** A snapshot that reads cleanly and shows the job in the running list. */
  predicate SeenRunning(poll: Poll, promptId: Json) {
    Observe(poll, promptId).Ok? && Observe(poll, promptId).value.running
  }

  /** A snapshot that reads cleanly and shows the job in neither list. */
  predicate SeenAbsent(poll: Poll, promptId: Json) {
    Observe(poll, promptId) == Ok(Presence(false, false))
  }

  function Later(n: nat, v: Verdict): Verdict {
    v.(consumed := v.consumed + n)
  }

  /** The polling loop read as a function of the snapshots it receives,
      from a state where `prompt_started` is `started`. */
  function Track(polls: seq<Poll>, promptId: Json, started: bool): (v: Verdict)
    ensures v.consumed <= |polls|
    ensures v.outcome == StillPolling ==> v.consumed == |polls|
    decreases |polls|
  {
    if polls == [] then Verdict(StillPolling, started, 0)
    else
      match Observe(polls[0], promptId)
      case Raise(_) => Later(1, Track(polls[1..], promptId, started))
      case Ok(p) =>
        var started' := started || p.running;
        if started' && !p.running && !p.queued then Verdict(Completed, started', 1)
        else if p.running || p.queued then Later(1, Track(polls[1..], promptId, started'))
        else if |polls| == 1 then Verdict(StillPolling, started', 1)
        else
          match StillAbsent(polls[1], promptId)
          case Ok(true) => Verdict(Vanished, started', 2)
          case _ => Later(2, Track(polls[2..], promptId, started'))
  }

  /** `prompt_started` is never reset. */
  lemma {:induction false} StartedNeverReset(polls: seq<Poll>, promptId: Json)
    ensures Track(polls, promptId, true).started
    decreases |polls|
  {
    if polls != [] {
      match Observe(polls[0], promptId) {
        case Raise(_) => StartedNeverReset(polls[1..], promptId);
        case Ok(p) =>
          if p.running || p.queued {
            StartedNeverReset(polls[1..], promptId);
          }
      }
    }
  }

  /** A snapshot showing the job running sets `prompt_started`, and the
      loop ends with it set. */
  lemma SeenRunningSetsStarted(polls: seq<Poll>, promptId: Json, started: bool)
    requires polls != [] && SeenRunning(polls[0], promptId)
    ensures Track(polls, promptId, started).started
    ensures Track(polls, promptId, started) == Later(1, Track(polls[1..], promptId, true))
  {
    StartedNeverReset(polls[1..], promptId);
  }

  /** Once `prompt_started` holds, the first snapshot showing the job in
      neither list ends the loop as Completed. */
  lemma StartedAndAbsentCompletes(polls: seq<Poll>, promptId: Json)
    requires polls != [] && SeenAbsent(polls[0], promptId)
    ensures Track(polls, promptId, true) == Verdict(Completed, true, 1)
  {
  }

  /** `prompt_started` is set only by a snapshot that showed the job
      running, among those the loop read. */
  lemma {:induction false} StartedOnlyWhenSeenRunning(polls: seq<Poll>, promptId: Json, started: bool)
    ensures Track(polls, promptId, started).started ==>
              started || exists k :: 0 <= k < Track(polls, promptId, started).consumed && SeenRunning(polls[k], promptId)
    decreases |polls|
  {
    if polls != [] {
      var o := Observe(polls[0], promptId);
      if o.Raise? {
        StartedTail(polls, promptId, started, started, 1);
      } else {
        var p := o.value;
        var started' := started || p.running;
        if p.running {
          assert SeenRunning(polls[0], promptId);
        } else if p.queued {
          StartedTail(polls, promptId, started, started', 1);
        } else if !started' && |polls| > 1 && StillAbsent(polls[1], promptId) != Ok(true) {
          StartedTail(polls, promptId, started, started', 2);
        }
      }
    }
  }

  /** One step of StartedOnlyWhenSeenRunning, where the first `n` snapshots
      leave the flag as it was. */
  lemma {:induction false} StartedTail(polls: seq<Poll>, promptId: Json, started: bool, started': bool, n: nat)
    requires 1 <= n <= |polls|
    requires started' == started
    requires Track(polls, promptId, started) == Later(n, Track(polls[n..], promptId, started'))
    ensures Track(polls, promptId, started).started ==>
              started || exists k :: 0 <= k < Track(polls, promptId, started).consumed && SeenRunning(polls[k], promptId)
    decreases |polls|, 0
  {
    var w := Track(polls[n..], promptId, started');
    StartedOnlyWhenSeenRunning(polls[n..], promptId, started');
    if w.started && !started {
      var k :| 0 <= k < w.consumed && SeenRunning(polls[n..][k], promptId);
      assert polls[n..][k] == polls[n + k];
    }
  }

  /** Completion is reported only on a snapshot showing the job in neither
      list, after an earlier snapshot showed it running. */
  lemma {:induction false} CompletedOnlyAfterRunning(polls: seq<Poll>, promptId: Json, started: bool)
    ensures var v := Track(polls, promptId, started);
            v.outcome == Completed ==>
              && v.started
              && 0 < v.consumed
              && SeenAbsent(polls[v.consumed - 1], promptId)
              && (started || exists k :: 0 <= k < v.consumed - 1 && SeenRunning(polls[k], promptId))
    decreases |polls|
  {
    if polls != [] {
      var o := Observe(polls[0], promptId);
      if o.Raise? {
        CompletedTail(polls, promptId, started, started, 1);
      } else {
        var p := o.value;
        var started' := started || p.running;
        if started' && !p.running && !p.queued {
        } else if p.running || p.queued {
          if p.running {
            assert SeenRunning(polls[0], promptId);
          }
          CompletedTail(polls, promptId, started, started', 1);
        } else if |polls| > 1 && StillAbsent(polls[1], promptId) != Ok(true) {
          CompletedTail(polls, promptId, started, started', 2);
        }
      }
    }
  }

  /** One step of CompletedOnlyAfterRunning: the verdict is the tail's,
      shifted by `n` snapshots, and the flag is set on the way only by a
      snapshot showing the job running. */
  lemma {:induction false} CompletedTail(polls: seq<Poll>, promptId: Json, started: bool, started': bool, n: nat)
    requires 1 <= n <= |polls|
    requires started' ==> started || SeenRunning(polls[0], promptId)
    requires Track(polls, promptId, started) == Later(n, Track(polls[n..], promptId, started'))
    ensures var v := Track(polls, promptId, started);
            v.outcome == Completed ==>
              && v.started
              && 0 < v.consumed
              && SeenAbsent(polls[v.consumed - 1], promptId)
              && (started || exists k :: 0 <= k < v.consumed - 1 && SeenRunning(polls[k], promptId))
    decreases |polls|, 0
  {
    var w := Track(polls[n..], promptId, started');
    CompletedOnlyAfterRunning(polls[n..], promptId, started');
    if w.outcome == Completed {
      assert polls[n..][w.consumed - 1] == polls[n + w.consumed - 1];
      if !started {
        if started' {
          assert 0 < n + w.consumed - 1;
        } else {
          var k :| 0 <= k < w.consumed - 1 && SeenRunning(polls[n..][k], promptId);
          assert polls[n..][k] == polls[n + k];
        }
      }
    }
  }

  /** The Vanished outcome is reached only while `prompt_started` is false,
      after one snapshot showed the job in neither list and the next one
      confirmed it. */
  lemma {:induction false} VanishedNeverStarted(polls: seq<Poll>, promptId: Json, started: bool)
    ensures var v := Track(polls, promptId, started);
            v.outcome == Vanished ==>
              && !started && !v.started
              && 2 <= v.consumed
              && SeenAbsent(polls[v.consumed - 2], promptId)
              && StillAbsent(polls[v.consumed - 1], promptId) == Ok(true)
    decreases |polls|
  {
    if polls != [] {
      var v := Track(polls, promptId, started);
      var o := Observe(polls[0], promptId);
      if o.Raise? {
        VanishedTail(polls, promptId, started, started, 1);
      } else {
        var p := o.value;
        var started' := started || p.running;
        if !(started' && !p.running && !p.queued) {
          if p.running || p.queued {
            VanishedTail(polls, promptId, started, started', 1);
          } else if |polls| > 1 && StillAbsent(polls[1], promptId) != Ok(true) {
            VanishedTail(polls, promptId, started, started', 2);
          }
        }
      }
    }
  }

  /** One step of VanishedNeverStarted: the verdict is the tail's, shifted
      by `n` snapshots. */
  lemma {:induction false} VanishedTail(polls: seq<Poll>, promptId: Json, started: bool, started': bool, n: nat)
    requires 1 <= n <= |polls|
    requires started ==> started'
    requires Track(polls, promptId, started) == Later(n, Track(polls[n..], promptId, started'))
    ensures var v := Track(polls, promptId, started);
            v.outcome == Vanished ==>
              && !started && !v.started
              && 2 <= v.consumed
              && SeenAbsent(polls[v.consumed - 2], promptId)
              && StillAbsent(polls[v.consumed - 1], promptId) == Ok(true)
    decreases |polls|, 0
  {
    var w := Track(polls[n..], promptId, started');
    VanishedNeverStarted(polls[n..], promptId, started');
    if w.outcome == Vanished {
      assert polls[n..][w.consumed - 2] == polls[n + w.consumed - 2];
      assert polls[n..][w.consumed - 1] == polls[n + w.consumed - 1];
    }
  }

  /** A job never seen running is never reported as completed. */
  lemma NeverRunningNeverCompletes(polls: seq<Poll>, promptId: Json)
    requires forall k :: 0 <= k < |polls| ==> !SeenRunning(polls[k], promptId)
    ensures Track(polls, promptId, false).outcome != Completed
  {
    CompletedOnlyAfterRunning(polls, promptId, false);
  }

  /** While every snapshot shows the job running or queued, the loop keeps
      waiting. */
  lemma {:induction false} KeepsWaitingWhilePresent(polls: seq<Poll>, promptId: Json, started: bool)
    requires forall k :: 0 <= k < |polls| ==>
               Observe(polls[k], promptId).Ok? && (Observe(polls[k], promptId).value.running || Observe(polls[k], promptId).value.queued)
    ensures Track(polls, promptId, started).outcome == StillPolling
    decreases |polls|
  {
    if polls != [] {
      assert forall k :: 0 <= k < |polls| - 1 ==> polls[1..][k] == polls[k + 1];
      KeepsWaitingWhilePresent(polls[1..], promptId, started || Observe(polls[0], promptId).value.running);
    }
  }

  /** A job seen only queued, then gone on two snapshots in a row, ends as
      Vanished, not Completed. */
  lemma {:induction false} QueuedThenGoneVanishes(queued: seq<Poll>, gone: Poll, confirm: Poll, promptId: Json)
    requires forall k :: 0 <= k < |queued| ==> Observe(queued[k], promptId) == Ok(Presence(false, true))
    requires SeenAbsent(gone, promptId)
    requires StillAbsent(confirm, promptId) == Ok(true)
    ensures Track(queued + [gone, confirm], promptId, false) == Verdict(Vanished, false, |queued| + 2)
    decreases |queued|
  {
    var polls := queued + [gone, confirm];
    if queued == [] {
      assert polls[0] == gone && polls[1] == confirm;
    } else {
      assert polls[0] == queued[0];
      assert polls[1..] == queued[1..] + [gone, confirm];
      QueuedThenGoneVanishes(queued[1..], gone, confirm, promptId);
    }
  }

  /** A job that vanishes on a snapshot but is back on the confirming one is
      still tracked: polling resumes with the snapshot after them. */
  lemma ReappearanceResumes(polls: seq<Poll>, promptId: Json)
    requires |polls| >= 2 && SeenAbsent(polls[0], promptId)
    requires StillAbsent(polls[1], promptId) == Ok(false)
    ensures Track(polls, promptId, false) == Later(2, Track(polls[2..], promptId, false))
  {
  }

  /** The confirming snapshot is only tested for absence: a job it shows
      running does not set `prompt_started`, so when the job is later gone
      twice in a row the loop ends as Vanished although it was seen
      running. */
  lemma ConfirmationDoesNotRecordRunning()
    ensures var id := JStr("p");
            var absent := Fetched(JObj(map[]));
            var running := Fetched(JObj(map["running_items" := JList([JObj(map["prompt_id" := id])])]));
            SeenRunning(running, id)
            && Track([absent, running, absent, absent], id, false) == Verdict(Vanished, false, 4)
  {
    var id := JStr("p");
    var absent := Fetched(JObj(map[]));
    var item := JObj(map["prompt_id" := id]);
    var running := Fetched(JObj(map["running_items" := JList([item])]));
    assert AnyListed([item], id) == Ok(true);
    assert Observe(running, id) == Ok(Presence(true, false));
    assert StillAbsent(running, id) == Ok(false);
    assert Observe(absent, id) == Ok(Presence(false, false));
    assert StillAbsent(absent, id) == Ok(true);
    var polls := [absent, running, absent, absent];
    assert polls[2..] == [absent, absent];
    assert Track(polls[2..], id, false) == Verdict(Vanished, false, 2);
  }

  /** A failed poll changes nothing: the loop retries with the next
      snapshot and the same `prompt_started`. */
  lemma PollErrorRetries(polls: seq<Poll>, promptId: Json, started: bool)
    requires polls != [] && Observe(polls[0], promptId).Raise?
    ensures Track(polls, promptId, started) == Later(1, Track(polls[1..], promptId, started))
  {
  }

  /** The listing `key` of a queue body, a missing one read as empty. */
  function Listing(body: map<string, Json>, key: string): Json {
    if key in body then body[key] else JList([])
  }

  /** A well-formed listing: a list of objects. */
  predicate ObjectList(items: Json) {
    items.JList? && forall k :: 0 <= k < |items.items| ==> items.items[k].JObj?
  }

  /** On a well-formed snapshot the job is running exactly when some item of
      `running_items` carries its id, queued exactly when some item of
      `queue_items` does, a missing listing counting as empty. */
  lemma ObserveClassifies(body: map<string, Json>, promptId: Json)
    requires ObjectList(Listing(body, "running_items"))
    requires ObjectList(Listing(body, "queue_items"))
    ensures Observe(Fetched(JObj(body)), promptId)
            == Ok(Presence(HasItemWithId(Listing(body, "running_items").items, promptId),
                           HasItemWithId(Listing(body, "queue_items").items, promptId)))
  {
    AnyListedMeansHasItem(Listing(body, "running_items").items, promptId);
    AnyListedMeansHasItem(Listing(body, "queue_items").items, promptId);
  }

  /** The polling loop of queue_workflow for the job `promptId`, over a
      finite trace of snapshots. */
  method TrackQueue(polls: seq<Poll>, promptId: Json) returns (outcome: Outcome, started: bool, consumed: nat)
    ensures Verdict(outcome, started, consumed) == Track(polls, promptId, false)
  {
    started := false;
    var i := 0;
    while i < |polls|
      invariant 0 <= i <= |polls|
      invariant Track(polls, promptId, false) == Later(i, Track(polls[i..], promptId, started))
      decreases |polls| - i
    {
      assert polls[i..][0] == polls[i];
      assert polls[i..][1..] == polls[i + 1..];
      match Observe(polls[i], promptId) {
        case Raise(_) =>
          // the `except` clause: wait and poll again
          i := i + 1;
        case Ok(p) =>
          if p.running && !started {
            started := true;
          }
          if started && !p.running && !p.queued {
            return Completed, started, i + 1;
          }
          if p.running || p.queued {
            i := i + 1;
            continue;
          }
          if !started && !p.running && !p.queued {
            if i + 1 == |polls| {
              return StillPolling, started, |polls|;
            }
            assert polls[i..][1] == polls[i + 1];
            assert polls[i..][2..] == polls[i + 2..];
            match StillAbsent(polls[i + 1], promptId) {
              case Ok(gone) =>
                if gone {
                  return Vanished, started, i + 2;
                }
              case Raise(_) =>
            }
            i := i + 2;
          }
      }
    }
    outcome, consumed := StillPolling, |polls|;
  }

  /** The part of queue_workflow after loading the workflow: `response` is
      what queue_prompt returned (None when the request failed, otherwise
      the decoded body). A false body is not queued; a body without `get`
      makes `response.get('prompt_id')` raise out of the function; otherwise
      the job id is that lookup, None when absent. */
  datatype Run = NotQueued | Crashed(exc: Exc) | Tracked(promptId: Json, verdict: Verdict)

  method QueueWorkflow(response: Option<Json>, polls: seq<Poll>) returns (run: Run)
    ensures run.NotQueued? <==> response.None? || !Truthy(response.value)
    ensures run.Crashed? <==> response.Some? && Truthy(response.value) && !response.value.JObj?
    ensures run.Crashed? ==> run.exc == AttributeError
    ensures run.Tracked? ==> run.promptId == IdOf(response.value.fields)
                             && run.verdict == Track(polls, run.promptId, false)
  {
    if response.Some? && Truthy(response.value) {
      match Get(response.value, "prompt_id", JNull) {
        case Raise(e) =>
          run := Crashed(e);
        case Ok(promptId) =>
          var outcome, started, consumed := TrackQueue(polls, promptId);
          run := Tracked(promptId, Verdict(outcome, started, consumed));
      }
    } else {
      run := NotQueued;
    }
  }
}
