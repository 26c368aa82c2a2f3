/**
 * The decision logic of inspire/check_cache.py: reading the value a
 * "Show Any" node left in a job's history record (get_show_any_value), and
 * deciding when a submitted job has finished from WebSocket events and
 * history polls (wait_for_prompt_completion). Every network call is
 * replaced by the value it returned.
 */
module CheckCache {
  import opened PyJson

  // ---------------------------------------------------------------------
  // get_show_any_value
  // ---------------------------------------------------------------------

  /** Python `str(value).lower()` for the chosen element. A string is
      lowered, `None` prints as "None" and the booleans as "True" and
      "False". Python would print a list or a dict with its repr; that
      rendering is not modelled and gives no value. */
  function Render(v: Json): (r: Option<string>)
    ensures v.JStr? ==> r == Some(Lower(v.str))
    ensures v.JNull? ==> r == Some("none")
    ensures v.JBool? ==> r == Some(if v.b then "true" else "false")
    ensures r.Some? ==> NoUpper(r.value)
  {
    match v
    case JStr(s) => Some(Lower(s))
    case JNull =>
      assert Lower("None") == "none" by {
        assert Lower("e") == "e";
        assert Lower("ne") == "ne";
        assert Lower("one") == "one";
      }
      Some(Lower("None"))
    case JBool(b) =>
      if b then
        assert Lower("True") == "true" by {
          assert Lower("e") == "e";
          assert Lower("ue") == "ue";
          assert Lower("rue") == "rue";
        }
        Some(Lower("True"))
      else
        assert Lower("False") == "false" by {
          assert Lower("e") == "e";
          assert Lower("se") == "se";
          assert Lower("lse") == "lse";
          assert Lower("alse") == "alse";
        }
        Some(Lower("False"))
    case _ => None
  }

  /** `record['outputs'][node]` when both steps are objects holding the
      key. */
  function OutputOf(record: Json, node: string): Option<Json>
  {
    match record
    case JObj(fields) =>
      if "outputs" in fields then
        match fields["outputs"]
        case JObj(outputs) => if node in outputs then Some(outputs[node]) else None
        case _ => None
      else None
    case _ => None
  }

  /** The body of the `try` block of get_show_any_value after its first
      lookup, given the job's record `history[prompt_id]`: Ok(None) is the
      "neither shape" return, Ok(Some(s)) the lowered value, Raise the
      exception that leaves the block. */
  function ShowAnyBody(record: Json, node: string): (r: Py<Option<string>>)
    ensures !record.JObj? ==> r == Raise(TypeError)
    ensures r.Ok? && r.value.Some? ==> NoUpper(r.value.value)
    // the only exception the `except` clause does not name comes from
    // `.get('ui', {})` on a node output that is a list or a string
    ensures r.Raise? && !IsCaught(r.exc) ==>
              && r.exc == AttributeError
              && OutputOf(record, node).Some?
              && (OutputOf(record, node).value.JList? || OutputOf(record, node).value.JStr?)
  {
    var outputs :- GetItem(record, "outputs");
    var nodeOutput :- GetItem(outputs, node);
    var hasText :- Contains(nodeOutput, "text");
    if hasText then
      var texts :- GetItem(nodeOutput, "text");
      var value :- FirstItem(texts);
      Ok(Render(value))
    else
      // `'text' in outputs` did not raise, so neither does `'ui' in outputs`
      var hasUi := Contains(nodeOutput, "ui").value;
      if !hasUi then Ok(None)
      else
        var ui :- Get(nodeOutput, "ui", JObj(map[]));
        var uiHasText :- Contains(ui, "text");
        if !uiHasText then Ok(None)
        else
          // `.get('ui', {})` found an object holding 'ui', so `outputs['ui']` does not raise
          var ui' := GetItem(nodeOutput, "ui").value;
          var texts :- GetItem(ui', "text");
          var value :- FirstItem(texts);
          Ok(Render(value))
  }

  /** The whole `try` block: `history[prompt_id]`, then the rest. */
  function TryBlock(history: Json, promptId: string, node: string): (r: Py<Option<string>>)
    ensures !history.JObj? ==> r == Raise(TypeError)
    ensures history.JObj? && promptId !in history.fields ==> r == Raise(KeyError)
    ensures history.JObj? && promptId in history.fields ==> r == ShowAnyBody(history.fields[promptId], node)
    ensures r.Ok? && r.value.Some? ==> NoUpper(r.value.value)
  {
    var record :- GetItem(history, promptId);
    ShowAnyBody(record, node)
  }

  /** The exceptions named in the `except` clause. */
  function IsCaught(e: Exc): (b: bool)
    // everything but the AttributeError of `.get` on a non-dict (and the
    // request failures, which get_history handles itself)
    ensures b <==> e != AttributeError && e != RequestError
  {
    e == KeyError || e == IndexError || e == TypeError
  }

  /** The diagnostic lookup the `except` clause logs:
      `history.get(prompt_id, {}).get('outputs', {}).get(node)`. It raises
      exactly when one of the three receivers is not an object. */
  function HandlerLookup(history: Json, promptId: string, node: string): (r: Py<Json>)
    ensures r.Raise? ==> r.exc == AttributeError
    ensures r.Raise? <==>
              || !history.JObj?
              || (promptId in history.fields && !history.fields[promptId].JObj?)
              || (promptId in history.fields && history.fields[promptId].JObj?
                  && "outputs" in history.fields[promptId].fields
                  && !history.fields[promptId].fields["outputs"].JObj?)
    ensures OutputOf(RecordOr(history, promptId), node).Some? ==>
              r == Ok(OutputOf(RecordOr(history, promptId), node).value)
  {
    var record :- Get(history, promptId, JObj(map[]));
    var outputs :- Get(record, "outputs", JObj(map[]));
    Get(outputs, node, JNull)
  }

  /** `history[prompt_id]` for an object holding the key, else None. */
  function RecordOr(history: Json, promptId: string): Json {
    if history.JObj? && promptId in history.fields then history.fields[promptId] else JNull
  }

  /** get_show_any_value exactly as written, given what get_history
      returned: None when the request failed, otherwise the decoded body,
      whatever its shape. A Raise result is an exception that escapes the
      function. */
  function ShowAnyAsWritten(history: Option<Json>, promptId: string, node: string): (r: Py<Option<string>>)
    ensures history.None? || !Truthy(history.value) ==> r == Ok(None)
    ensures history.Some? && history.value.JObj? && promptId !in history.value.fields ==> r == Ok(None)
    ensures r.Ok? && r.value.Some? ==> NoUpper(r.value.value)
    // an escaping exception is an AttributeError, or the TypeError of
    // `prompt_id in True` before the `try`
    ensures r.Raise? ==> r.exc == AttributeError || (history == Some(JBool(true)) && r.exc == TypeError)
  {
    if history.None? || !Truthy(history.value) then Ok(None)
    else
      var present :- Contains(history.value, promptId);
      if !present then Ok(None)
      else
        match TryBlock(history.value, promptId, node)
        case Ok(r) => Ok(r)
        case Raise(e) =>
          if !IsCaught(e) then Raise(e)
          else
            match HandlerLookup(history.value, promptId, node)
            case Ok(_) => Ok(None)
            case Raise(e') => Raise(e')
  }

  /** get_show_any_value as its comment intends it: every parse error of the
      history gives None and nothing is raised. */
  function GetShowAnyValue(history: Option<Json>, promptId: string, node: string): (r: Option<string>)
    ensures history.None? || !history.value.JObj? || promptId !in history.value.fields ==> r == None
    ensures r.Some? ==> NoUpper(r.value)
  {
    if history.None? || !Truthy(history.value) then None
    else
      match Contains(history.value, promptId)
      case Raise(_) => None
      case Ok(present) =>
        if !present then None
        else
          match TryBlock(history.value, promptId, node)
          case Ok(r) => r
          case Raise(_) => None
  }

  // A reference definition of the extraction, written in terms of the
  // history's shape instead of Python's operations.

  /** `history[prompt_id]['outputs'][node]` when every step is an object
      that holds the key. */
  function NodeOutput(history: Option<Json>, promptId: string, node: string): Option<Json>
  {
    if history.Some? && history.value.JObj? && promptId in history.value.fields then
      OutputOf(history.value.fields[promptId], node)
    else None
  }

  /** The list the extractor reads from: the direct `text` entry when the
      node output has one, otherwise the `text` entry of its `ui` object. */
  function ChosenTexts(nodeOutput: Json): Option<Json>
  {
    match nodeOutput
    case JObj(m) =>
      if "text" in m then Some(m["text"])
      else if "ui" in m && m["ui"].JObj? && "text" in m["ui"].fields then Some(m["ui"].fields["text"])
      else None
    case _ => None
  }

  /** The first element of a non-empty list (or string). */
  function FirstOf(texts: Json): Option<Json>
  {
    match texts
    case JList(xs) => if |xs| > 0 then Some(xs[0]) else None
    case JStr(s) => if |s| > 0 then Some(JStr(s[..1])) else None
    case _ => None
  }

  /** The extraction by shape: node output, chosen list, first element,
      lowered. */
  function ShapeValue(history: Option<Json>, promptId: string, node: string): Option<string>
  {
    match NodeOutput(history, promptId, node)
    case None => None
    case Some(out) =>
      match ChosenTexts(out)
      case None => None
      case Some(texts) =>
        match FirstOf(texts)
        case None => None
        case Some(v) => Render(v)
  }

  /** The try body succeeds with a value exactly along the reference path. */
  lemma BodyMatchesShape(record: Json, node: string)
    ensures match ShowAnyBody(record, node)
            case Ok(r) => r == ShapeValue(Some(JObj(map["p" := record])), "p", node)
            case Raise(_) => ShapeValue(Some(JObj(map["p" := record])), "p", node) == None
  {
    var h := Some(JObj(map["p" := record]));
    assert NodeOutput(h, "p", node) == OutputOf(record, node);
    if OutputOf(record, node).Some? {
      var out := OutputOf(record, node).value;
      match out {
        case JObj(m) =>
          if "text" !in m && "ui" in m {
            var ui := m["ui"];
            assert Get(out, "ui", JObj(map[])) == Ok(ui);
          }
        case _ =>
      }
    }
  }

  /** The extractor agrees with the reference definition on every history. */
  lemma ShowAnyMatchesShape(history: Option<Json>, promptId: string, node: string)
    ensures GetShowAnyValue(history, promptId, node) == ShapeValue(history, promptId, node)
  {
    if history.Some? && history.value.JObj? && promptId in history.value.fields {
      var record := history.value.fields[promptId];
      BodyMatchesShape(record, node);
      assert NodeOutput(history, promptId, node) == NodeOutput(Some(JObj(map["p" := record])), "p", node);
    }
  }

  /** The direct `text` shape wins: when the node output is an object with a
      `text` entry, its first element is the value, whatever `ui` holds. */
  lemma DirectShapeWins(history: Option<Json>, promptId: string, node: string, m: map<string, Json>)
    requires NodeOutput(history, promptId, node) == Some(JObj(m))
    requires "text" in m
    ensures GetShowAnyValue(history, promptId, node)
            == (match FirstOf(m["text"]) case Some(v) => Render(v) case None => None)
  {
    ShowAnyMatchesShape(history, promptId, node);
  }

  /** The `ui` -> `text` shape is read only when `text` is absent and `ui` is
      an object holding `text`. */
  lemma FallbackShape(history: Option<Json>, promptId: string, node: string, m: map<string, Json>, ui: map<string, Json>)
    requires NodeOutput(history, promptId, node) == Some(JObj(m))
    requires "text" !in m && "ui" in m && m["ui"] == JObj(ui) && "text" in ui
    ensures GetShowAnyValue(history, promptId, node)
            == (match FirstOf(ui["text"]) case Some(v) => Render(v) case None => None)
  {
    ShowAnyMatchesShape(history, promptId, node);
  }

  /** A value is found only through one of the two shapes, and only from a
      non-empty list (or string). */
  lemma ValueNeedsAShape(history: Option<Json>, promptId: string, node: string)
    requires GetShowAnyValue(history, promptId, node).Some?
    ensures NodeOutput(history, promptId, node).Some?
    ensures ChosenTexts(NodeOutput(history, promptId, node).value).Some?
    ensures FirstOf(ChosenTexts(NodeOutput(history, promptId, node).value).value).Some?
  {
    ShowAnyMatchesShape(history, promptId, node);
  }

  /** Missing `outputs` or node key, or neither shape: None, nothing raised. */
  lemma NoShapeGivesNone(history: Option<Json>, promptId: string, node: string)
    requires NodeOutput(history, promptId, node).None?
          || ChosenTexts(NodeOutput(history, promptId, node).value).None?
    ensures GetShowAnyValue(history, promptId, node) == None
  {
    ShowAnyMatchesShape(history, promptId, node);
  }

  /** An empty chosen list gives None. */
  lemma EmptyTextsGiveNone(history: Option<Json>, promptId: string, node: string)
    requires NodeOutput(history, promptId, node).Some?
    requires ChosenTexts(NodeOutput(history, promptId, node).value) == Some(JList([]))
    ensures GetShowAnyValue(history, promptId, node) == None
  {
    ShowAnyMatchesShape(history, promptId, node);
  }

  /** A result is already lower-case: lowering it again changes nothing. */
  lemma ResultIsLowerCase(history: Option<Json>, promptId: string, node: string)
    requires GetShowAnyValue(history, promptId, node).Some?
    ensures Lower(GetShowAnyValue(history, promptId, node).value) == GetShowAnyValue(history, promptId, node).value
  {
    LowerKeepsLowerCase(GetShowAnyValue(history, promptId, node).value);
  }

  /** Where the code as written returns, it returns what the intended
      extractor returns; where it raises, the intended one gives None. */
  lemma AsWrittenAgreesUnlessRaised(history: Option<Json>, promptId: string, node: string)
    ensures ShowAnyAsWritten(history, promptId, node).Ok? ==>
              ShowAnyAsWritten(history, promptId, node).value == GetShowAnyValue(history, promptId, node)
    ensures ShowAnyAsWritten(history, promptId, node).Raise? ==>
              && (ShowAnyAsWritten(history, promptId, node).exc == AttributeError
                  || history == Some(JBool(true)))
              && GetShowAnyValue(history, promptId, node) == None
  {
  }

  /** Finding: a record that is `null` makes `record['outputs']` a
      TypeError, and the `except` clause's own diagnostic lookup then calls
      `.get` on `None`, so an AttributeError escapes. */
  lemma NullRecordEscapes()
    ensures ShowAnyAsWritten(Some(JObj(map["p" := JNull])), "p", "9") == Raise(AttributeError)
    ensures GetShowAnyValue(Some(JObj(map["p" := JNull])), "p", "9") == None
  {
    var h := map["p" := JNull];
    assert "p" in h && h["p"] == JNull && h != map[];
    assert TryBlock(JObj(h), "p", "9") == Raise(TypeError);
    assert HandlerLookup(JObj(h), "p", "9") == Raise(AttributeError);
  }

  /** Finding: a node output that is a list holding the string "ui" (but not
      "text") passes `'ui' in outputs`, and `outputs.get('ui', {})` raises an
      AttributeError that the `except` clause does not name. */
  lemma ListOutputEscapes()
    ensures ShowAnyAsWritten(
              Some(JObj(map["p" := JObj(map["outputs" := JObj(map["9" := JList([JStr("ui")])])])])), "p", "9")
            == Raise(AttributeError)
    ensures GetShowAnyValue(
              Some(JObj(map["p" := JObj(map["outputs" := JObj(map["9" := JList([JStr("ui")])])])])), "p", "9")
            == None
  {
    var out := JList([JStr("ui")]);
    assert JStr("text") !in out.items;
    assert Contains(out, "text") == Ok(false);
    assert Contains(out, "ui") == Ok(true);
    var record := JObj(map["outputs" := JObj(map["9" := out])]);
    assert ShowAnyBody(record, "9") == Raise(AttributeError);
    var h := map["p" := record];
    assert "p" in h && h["p"] == record && h != map[];
    assert TryBlock(JObj(h), "p", "9") == Raise(AttributeError);
  }

  /** Finding: a history body that is a list holding the id passes
      `prompt_id in history`; `history[prompt_id]` is a TypeError, and the
      diagnostic lookup `history.get(...)` raises an AttributeError. */
  lemma ListHistoryEscapes()
    ensures ShowAnyAsWritten(Some(JList([JStr("p")])), "p", "9") == Raise(AttributeError)
    ensures GetShowAnyValue(Some(JList([JStr("p")])), "p", "9") == None
  {
    var h := JList([JStr("p")]);
    assert JStr("p") in h.items;
    assert Truthy(h) && Contains(h, "p") == Ok(true);
  }

  /** Finding: a history body `true` passes `not history`, and
      `prompt_id in True` raises a TypeError before the `try`. */
  lemma TrueHistoryEscapes()
    ensures ShowAnyAsWritten(Some(JBool(true)), "p", "9") == Raise(TypeError)
    ensures GetShowAnyValue(Some(JBool(true)), "p", "9") == None
  {
  }

  // ---------------------------------------------------------------------
  // wait_for_prompt_completion
  // ---------------------------------------------------------------------

  /** The ceiling on the wait, in seconds. */
  const MaxWaitSeconds: real := 300.0

  /** What one `ws.recv()` with a one-second timeout produced. */
  datatype Frame =
    | Timeout             // WebSocketTimeoutException
    | Binary              // a bytes frame, ignored
    | Text(message: Json) // a text frame, decoded by json.loads
    | Broken              // any other error: undecodable text, a dropped stream

  /** Everything one pass of the loop observes: the time elapsed since the
      start when the ceiling is checked, the frame received, and whether a
      history poll in this pass would find the job's id. */
  datatype Round = Round(elapsed: real, frame: Frame, historyHasId: bool)

  /** What the final history check, made after the loop, reported. */
  datatype FinalCheck = NotMade | Checked(historyHasId: bool)

  /** `message['type'] == 'executing'` and, for the data,
      `data['prompt_id'] == prompt_id and data['node'] is None`; any lookup
      that raises is caught by the loop and counts as no signal. */
  function ExecutingDone(message: Json, promptId: string): (r: Py<bool>)
    ensures r.Raise? ==> r.exc == KeyError || r.exc == TypeError
    ensures !message.JObj? ==> r == Raise(TypeError)
    ensures r == Ok(true) ==> "type" in message.fields && message.fields["type"] == JStr("executing")
    ensures message.JObj? && "type" in message.fields && message.fields["type"] != JStr("executing") ==> r == Ok(false)
  {
    var kind :- GetItem(message, "type");
    if kind != JStr("executing") then Ok(false)
    else
      var data :- GetItem(message, "data");
      var id :- GetItem(data, "prompt_id");
      if id != JStr(promptId) then Ok(false)
      else
        var node :- GetItem(data, "node");
        Ok(node == JNull)
  }

  /** The frame tells that the job has finished. */
  predicate FrameCompletes(frame: Frame, promptId: string) {
    frame.Text? && ExecutingDone(frame.message, promptId) == Ok(true)
  }

  /** A pass of the loop that sees completion, by either path. */
  predicate RoundCompletes(round: Round, promptId: string) {
    FrameCompletes(round.frame, promptId) || round.historyHasId
  }

  /** The completion event is exactly an "executing" message for this job
      with a null node. */
  lemma FrameCompletesIff(message: Json, promptId: string)
    ensures FrameCompletes(Text(message), promptId) <==>
              && message.JObj?
              && "type" in message.fields && message.fields["type"] == JStr("executing")
              && "data" in message.fields && message.fields["data"].JObj?
              && "prompt_id" in message.fields["data"].fields
              && message.fields["data"].fields["prompt_id"] == JStr(promptId)
              && "node" in message.fields["data"].fields
              && message.fields["data"].fields["node"] == JNull
  {
  }

  /** The trace reaches the ceiling: its last pass comes after it. */
  predicate ReachesDeadline(rounds: seq<Round>) {
    |rounds| > 0 && rounds[|rounds| - 1].elapsed > MaxWaitSeconds
  }

  /** Some pass signals completion, and neither it nor any pass before it
      came after the ceiling. */
  predicate SignalBeforeDeadline(rounds: seq<Round>, promptId: string) {
    exists k :: 0 <= k < |rounds| && RoundCompletes(rounds[k], promptId) && NoTimeoutUpTo(rounds, k)
  }

  predicate NoTimeoutUpTo(rounds: seq<Round>, k: int)
    requires k < |rounds|
  {
    forall j :: 0 <= j <= k ==> rounds[j].elapsed <= MaxWaitSeconds
  }

  /** The loop of wait_for_prompt_completion, followed by its final history
      check. `connected` says whether the WebSocket connection was opened
      (otherwise the outer `except` skips the loop); `rounds` gives what
      each pass observes; `finalHistoryHasId` is what the final check would
      find. Returns the final `is_completed`, whether each pass polled the
      history, and what the final check reported. */
  method WaitForPromptCompletion(promptId: string, connected: bool, rounds: seq<Round>, finalHistoryHasId: bool)
    returns (completed: bool, polled: seq<bool>, finalCheck: FinalCheck)
    requires connected ==> ReachesDeadline(rounds)
    // completion iff a signal arrived before the ceiling
    ensures completed <==> connected && SignalBeforeDeadline(rounds, promptId)
    // one pass per element of `polled`, all of them before the ceiling
    ensures !connected ==> polled == []
    ensures |polled| <= |rounds|
    ensures forall k :: 0 <= k < |polled| ==> rounds[k].elapsed <= MaxWaitSeconds
    // the loop stops at the first pass that signals
    ensures forall k :: 0 <= k < |polled| - 1 ==> !RoundCompletes(rounds[k], promptId)
    ensures completed <==> |polled| > 0 && RoundCompletes(rounds[|polled| - 1], promptId)
    // history is polled exactly in the passes whose frame did not complete
    ensures forall k :: 0 <= k < |polled| ==> polled[k] == !FrameCompletes(rounds[k].frame, promptId)
    // without completion the loop ended on the ceiling
    ensures connected && !completed ==> |polled| < |rounds| && rounds[|polled|].elapsed > MaxWaitSeconds
    // one final check, only without completion, and it only reports
    ensures finalCheck == if completed then NotMade else Checked(finalHistoryHasId)
  {
    completed := false;
    polled := [];
    if connected {
      var i := 0;
      while !completed
        invariant i == |polled| <= |rounds|
        invariant !completed ==> i < |rounds|
        invariant forall k :: 0 <= k < i ==> rounds[k].elapsed <= MaxWaitSeconds
        invariant forall k :: 0 <= k < i - 1 ==> !RoundCompletes(rounds[k], promptId)
        invariant !completed ==> forall k :: 0 <= k < i ==> !RoundCompletes(rounds[k], promptId)
        invariant completed <==> i > 0 && RoundCompletes(rounds[i - 1], promptId)
        invariant forall k :: 0 <= k < i ==> polled[k] == !FrameCompletes(rounds[k].frame, promptId)
        decreases |rounds| - i
      {
        if rounds[i].elapsed > MaxWaitSeconds {
          break;
        }
        match rounds[i].frame {
          case Text(message) =>
            if ExecutingDone(message, promptId) == Ok(true) {
              completed := true;
            }
          case _ =>
        }
        polled := polled + [!completed];
        if !completed {
          if rounds[i].historyHasId {
            completed := true;
          }
        }
        i := i + 1;
      }
      assert completed ==> NoTimeoutUpTo(rounds, i - 1);
      if !completed {
        forall k | 0 <= k < |rounds| && RoundCompletes(rounds[k], promptId)
          ensures !NoTimeoutUpTo(rounds, k)
        {
          assert rounds[i].elapsed > MaxWaitSeconds;
          assert k >= i;
        }
      }
    }
    if !completed {
      finalCheck := Checked(finalHistoryHasId);
    } else {
      finalCheck := NotMade;
    }
  }
}
