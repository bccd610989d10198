/**
 * The computer-use loop of the earlier Python agent (agent.py): `handle_item` turns one
 * output item of the model into a computer action and a screenshot reply, and `main`
 * feeds the conversation back to the model until it answers as the assistant.
 *
 * JSON values are the parsed form the Python code sees. The computer (a
 * `WindowMPXEnvironment`) and the model are objects that record what they are asked and
 * answer from a script; what the environment's own methods do is modelled in `PyMpx`.
 */
module PyAgent {
  import opened Wrappers
  import opened Text
  import PyMpx

  /** A parsed JSON value; objects are Python dicts, looked up by key. */
  datatype Json =
    | JNull
    | JBool(b: bool)
    | JNum(n: int)
    | JStr(s: string)
    | JArr(items: seq<Json>)
    | JObj(fields: map<string, Json>)

  /** The exceptions the agent raises or lets through. */
  datatype AgentError =
    | KeyError(key: string)
    | IndexError
    | TypeError
    | AttributeError(name: string)
    | ValueError(message: string)
    | Raised(error: PyMpx.PyError)

  // ---------------------------------------------------------------------------------
  // Looking into JSON values

  /** `v[key]` with a string key: only a dict has one; anything else is a `TypeError`. */
  function Field(v: Json, key: string): (r: Result<Json, AgentError>)
    ensures r.Success? <==> v.JObj? && key in v.fields
    ensures r.Success? ==> r.value == v.fields[key]
    ensures v.JObj? && key !in v.fields ==> r == Failure(KeyError(key))
  {
    match v
    case JObj(fields) => if key in fields then Success(fields[key]) else Failure(KeyError(key))
    case _ => Failure(TypeError)
  }

  /** `v.get(key, default)`: a dict gives the default for a missing key; other values have no `get`. */
  function FieldOr(v: Json, key: string, default: Json): (r: Result<Json, AgentError>)
    ensures r.Success? <==> v.JObj?
    ensures v.JObj? ==> r.value == if key in v.fields then v.fields[key] else default
  {
    match v
    case JObj(fields) => Success(if key in fields then fields[key] else default)
    case _ => Failure(AttributeError("get"))
  }

  /** `v[0]`: the first element of a list or the first character of a string. */
  function First(v: Json): (r: Result<Json, AgentError>)
    ensures v.JArr? && v.items != [] ==> r == Success(v.items[0])
    ensures r.Success? ==> v.JArr? || v.JStr?
  {
    match v
    case JArr(items) => if items == [] then Failure(IndexError) else Success(items[0])
    case JStr(s) => if s == [] then Failure(IndexError) else Success(JStr([s[0]]))
    case JObj(_) => Failure(KeyError("0"))
    case _ => Failure(TypeError)
  }

  /** `item["content"][0]["text"]`, which `handle_item` prints for a message. */
  function MessageText(item: Json): (r: Result<Json, AgentError>)
    ensures r.Success? ==> Field(item, "content").Success? && Field(item, "content").value.JArr?
  {
    match Field(item, "content")
    case Failure(e) => Failure(e)
    case Success(content) =>
      match First(content)
      case Failure(e) => Failure(e)
      case Success(first) => Field(first, "text")
  }

  /**
   * The loop printing `check["message"]` for every pending safety check. Iterating a
   * string or a dict yields strings, which have no `"message"`; so only a list of
   * dicts with a message, an empty string or an empty dict gets through.
   */
  function ChecksPrinted(pending: Json): Outcome<AgentError>
  {
    match pending
    case JArr(checks) => MessagesPrinted(checks)
    case JStr(s) => if s == [] then Pass else Fail(TypeError)
    case JObj(fields) => if fields == map[] then Pass else Fail(TypeError)
    case _ => Fail(TypeError)
  }

  function MessagesPrinted(checks: seq<Json>): Outcome<AgentError>
  {
    if checks == [] then Pass
    else match Field(checks[0], "message")
      case Failure(e) => Fail(e)
      case Success(_) => MessagesPrinted(checks[1..])
  }

  // ---------------------------------------------------------------------------------
  // The action and its reply

  /** `{k: v for k, v in action.items() if k != "type"}`. */
  function ActionArgs(action: map<string, Json>): map<string, Json>
  {
    map k | k in action && k != "type" :: action[k]
  }

  /** The arguments are every field of the action except `type`, unchanged. */
  lemma ActionArgsDropType(action: map<string, Json>)
    ensures ActionArgs(action).Keys == action.Keys - {"type"}
    ensures forall k :: k in ActionArgs(action) ==> ActionArgs(action)[k] == action[k]
  {
  }

  /** `max(min(v, 5), -5)`. */
  function Clamp(v: int): int
  {
    if v > 5 then 5 else if v < -5 then -5 else v
  }

  /** The clamp keeps a scroll amount within five notches either way and changes nothing inside that range. */
  lemma ClampBounds(v: int)
    ensures -5 <= Clamp(v) <= 5
    ensures -5 <= v <= 5 ==> Clamp(v) == v
    ensures v > 5 ==> Clamp(v) == 5
    ensures v < -5 ==> Clamp(v) == -5
  {
  }

  /** The clamp on a JSON value: a number is clamped, a boolean is already within range, anything else cannot be compared. */
  function ClampValue(v: Json): (r: Result<Json, AgentError>)
    ensures r.Success? <==> v.JNum? || v.JBool?
    ensures v.JNum? ==> r == Success(JNum(Clamp(v.n)))
    ensures v.JBool? ==> r == Success(v)
  {
    match v
    case JNum(n) => Success(JNum(Clamp(n)))
    case JBool(_) => Success(v)
    case _ => Failure(TypeError)
  }

  /** The keyword arguments `handle_item` dispatches: for `scroll`, both amounts clamped in place. */
  function DispatchedArgs(actionType: Json, args: map<string, Json>): Result<map<string, Json>, AgentError>
  {
    if actionType != JStr("scroll") then Success(args)
    else if "scroll_x" !in args then Failure(KeyError("scroll_x"))
    else match ClampValue(args["scroll_x"])
      case Failure(e) => Failure(e)
      case Success(x) =>
        var args' := args["scroll_x" := x];
        if "scroll_y" !in args' then Failure(KeyError("scroll_y"))
        else match ClampValue(args'["scroll_y"])
          case Failure(e) => Failure(e)
          case Success(y) => Success(args'["scroll_y" := y])
  }

  /**
   * Only `scroll` changes the arguments: the two amounts are clamped and every other
   * argument is passed on as it is; a missing amount is a `KeyError`.
   */
  lemma DispatchedArgsClamp(actionType: Json, args: map<string, Json>)
    ensures actionType != JStr("scroll") ==> DispatchedArgs(actionType, args) == Success(args)
    ensures actionType == JStr("scroll") && "scroll_x" !in args ==> DispatchedArgs(actionType, args) == Failure(KeyError("scroll_x"))
    ensures actionType == JStr("scroll") && DispatchedArgs(actionType, args).Success? ==>
      var r := DispatchedArgs(actionType, args);
      && "scroll_x" in args && "scroll_y" in args
      && r.value.Keys == args.Keys
      && (forall k :: k in args && k != "scroll_x" && k != "scroll_y" ==> r.value[k] == args[k])
      && ClampValue(args["scroll_x"]).Success? && r.value["scroll_x"] == ClampValue(args["scroll_x"]).value
      && ClampValue(args["scroll_y"]).Success? && r.value["scroll_y"] == ClampValue(args["scroll_y"]).value
  {
  }

  /** A dispatched scroll never asks for more than five notches on either wheel. */
  lemma ScrollAmountsBounded(args: map<string, Json>)
    requires DispatchedArgs(JStr("scroll"), args).Success?
    ensures var sent := DispatchedArgs(JStr("scroll"), args).value;
      forall k :: k in {"scroll_x", "scroll_y"} && sent[k].JNum? ==> -5 <= sent[k].n <= 5
  {
    var sent := DispatchedArgs(JStr("scroll"), args).value;
    DispatchedArgsClamp(JStr("scroll"), args);
    forall k | k in {"scroll_x", "scroll_y"} && sent[k].JNum?
      ensures -5 <= sent[k].n <= 5
    {
      assert k == "scroll_x" || k == "scroll_y";
      ClampBounds(args[k].n);
    }
  }

  const ImagePrefix: string := "data:image/png;base64,"

  /** The `computer_call_output` item returned for a call. */
  function CallOutput(callId: Json, checks: Json, screenshot: string): Json
  {
    JObj(map[
      "type" := JStr("computer_call_output"),
      "call_id" := callId,
      "acknowledged_safety_checks" := checks,
      "output" := JObj(map["type" := JStr("input_image"), "image_url" := JStr(ImagePrefix + screenshot)])])
  }

  // ---------------------------------------------------------------------------------
  // The computer

  /** What `handle_item` asks of the computer: an action method with its keyword arguments, or a screenshot. */
  datatype Call = Act(name: string, args: map<string, Json>) | Shoot

  /** The computer: the calls it received, and what its `n`-th call answers. */
  class Computer {
    var calls: seq<Call>
    /** How the action method called as the `n`-th call ends: its own exception, or a `TypeError` or `AttributeError` for a name or arguments it does not take. */
    const acts: nat -> Outcome<AgentError>
    /** What `screenshot` returns or raises as the `n`-th call. */
    const shots: nat -> Result<string, AgentError>

    constructor (acts: nat -> Outcome<AgentError>, shots: nat -> Result<string, AgentError>)
      ensures calls == [] && this.acts == acts && this.shots == shots
    {
      calls := [];
      this.acts, this.shots := acts, shots;
    }

    /** `getattr(computer, name)(**args)`. */
    method Perform(name: string, args: map<string, Json>) returns (r: Outcome<AgentError>)
      modifies this
      ensures calls == old(calls) + [Act(name, args)] && r == acts(|old(calls)|)
    {
      r := acts(|calls|);
      calls := calls + [Act(name, args)];
    }

    method Screenshot() returns (r: Result<string, AgentError>)
      modifies this
      ensures calls == old(calls) + [Shoot] && r == shots(|old(calls)|)
    {
      r := shots(|calls|);
      calls := calls + [Shoot];
    }
  }

  /** What handling an item did: the computer calls it made, in order, and the items it returns or the exception. */
  datatype Handled = Handled(calls: seq<Call>, result: Result<seq<Json>, AgentError>)

  /** `handle_item` for an item with `n` calls already made on the computer. */
  function HandleItemRun(item: Json, acts: nat -> Outcome<AgentError>, shots: nat -> Result<string, AgentError>, n: nat): (h: Handled)
  {
    match Field(item, "type")
    case Failure(e) => Handled([], Failure(e))
    case Success(kind) =>
      var shown := if kind == JStr("message") then MessageText(item) else Success(JNull);
      if shown.Failure? then Handled([], Failure(shown.error))
      else if kind != JStr("computer_call") then Handled([], Success([]))
      else ComputerCallRun(item, acts, shots, n)
  }

  /** The `computer_call` branch of `handle_item`. */
  function ComputerCallRun(item: Json, acts: nat -> Outcome<AgentError>, shots: nat -> Result<string, AgentError>, n: nat): Handled
  {
    match Field(item, "action")
    case Failure(e) => Handled([], Failure(e))
    case Success(action) =>
      match Field(action, "type")
      case Failure(e) => Handled([], Failure(e))
      case Success(actionType) =>
        match DispatchedArgs(actionType, ActionArgs(action.fields))
        case Failure(e) => Handled([], Failure(e))
        case Success(args) =>
          if !actionType.JStr? then Handled([], Failure(TypeError))
          else
            var act := Act(actionType.s, args);
            if acts(n).Fail? then Handled([act], Failure(acts(n).error))
            else if shots(n + 1).Failure? then Handled([act, Shoot], Failure(shots(n + 1).error))
            else ReplyRun(item, shots(n + 1).value, [act, Shoot])
  }

  /** After the screenshot: print the pending safety checks, then build the reply. */
  function ReplyRun(item: Json, screenshot: string, calls: seq<Call>): Handled
    requires item.JObj?
  {
    var pending := FieldOr(item, "pending_safety_checks", JArr([])).value;
    match ChecksPrinted(pending)
    case Fail(e) => Handled(calls, Failure(e))
    case Pass =>
      match Field(item, "call_id")
      case Failure(e) => Handled(calls, Failure(e))
      case Success(callId) => Handled(calls, Success([CallOutput(callId, pending, screenshot)]))
  }

  /** An item that is not a `computer_call` returns nothing and does not touch the computer. */
  lemma OnlyComputerCallsAct(item: Json, acts: nat -> Outcome<AgentError>, shots: nat -> Result<string, AgentError>, n: nat)
    requires Field(item, "type").Success? && Field(item, "type").value != JStr("computer_call")
    ensures HandleItemRun(item, acts, shots, n).calls == []
    ensures HandleItemRun(item, acts, shots, n).result.Success? ==> HandleItemRun(item, acts, shots, n).result.value == []
  {
  }

  /**
   * A `computer_call` that goes through performs its action with every field of the
   * action except `type` (the scroll amounts clamped), takes one screenshot, and returns
   * one `computer_call_output` for the same `call_id`, acknowledging the pending checks
   * (none when the item has no such field) and carrying the screenshot as a PNG data URL.
   */
  lemma ComputerCallReply(item: Json, acts: nat -> Outcome<AgentError>, shots: nat -> Result<string, AgentError>, n: nat)
    requires Field(item, "type") == Success(JStr("computer_call"))
    requires HandleItemRun(item, acts, shots, n).result.Success?
    ensures var h := HandleItemRun(item, acts, shots, n);
      var action := item.fields["action"];
      && action.JObj? && "type" in action.fields && action.fields["type"].JStr?
      && h.calls == [Act(action.fields["type"].s, DispatchedArgs(action.fields["type"], ActionArgs(action.fields)).value), Shoot]
      && |h.result.value| == 1
      && var reply := h.result.value[0];
      && reply.JObj? && reply.fields["type"] == JStr("computer_call_output")
      && reply.fields["call_id"] == item.fields["call_id"]
      && reply.fields["acknowledged_safety_checks"]
           == (if "pending_safety_checks" in item.fields then item.fields["pending_safety_checks"] else JArr([]))
      && reply.fields["output"].fields["image_url"] == JStr(ImagePrefix + shots(n + 1).value)
  {
  }

  /** The screenshot's data URL always starts with the PNG prefix. */
  lemma ImageUrlHasPrefix(callId: Json, checks: Json, screenshot: string)
    ensures var url := CallOutput(callId, checks, screenshot).fields["output"].fields["image_url"].s;
      |url| >= |ImagePrefix| && url[..|ImagePrefix|] == ImagePrefix && url[|ImagePrefix|..] == screenshot
  {
  }

  /** `handle_item` as the agent's loop runs it on the computer. */
  method HandleItem(item: Json, computer: Computer) returns (r: Result<seq<Json>, AgentError>)
    modifies computer
    ensures var h := HandleItemRun(item, computer.acts, computer.shots, |old(computer.calls)|);
      computer.calls == old(computer.calls) + h.calls && r == h.result
  {
    var kind := Field(item, "type");
    if kind.Failure? {
      return Failure(kind.error);
    }
    if kind.value == JStr("message") {
      var text := MessageText(item);
      if text.Failure? {
        return Failure(text.error);
      }
    }
    if kind.value != JStr("computer_call") {
      return Success([]);
    }
    var action := Field(item, "action");
    if action.Failure? {
      return Failure(action.error);
    }
    var actionType := Field(action.value, "type");
    if actionType.Failure? {
      return Failure(actionType.error);
    }
    var args := ActionArgs(action.value.fields);
    if actionType.value == JStr("scroll") {
      var clamped := ClampInPlace(args);
      if clamped.Failure? {
        return Failure(clamped.error);
      }
      args := clamped.value;
    }
    assert DispatchedArgs(actionType.value, ActionArgs(action.value.fields)) == Success(args);
    if !actionType.value.JStr? {
      return Failure(TypeError);
    }
    var acted := computer.Perform(actionType.value.s, args);
    if acted.Fail? {
      return Failure(acted.error);
    }
    var screenshot := computer.Screenshot();
    if screenshot.Failure? {
      return Failure(screenshot.error);
    }
    var pending := FieldOr(item, "pending_safety_checks", JArr([])).value;
    var printed := ChecksPrinted(pending);
    if printed.Fail? {
      return Failure(printed.error);
    }
    var callId := Field(item, "call_id");
    if callId.Failure? {
      return Failure(callId.error);
    }
    r := Success([CallOutput(callId.value, pending, screenshot.value)]);
  }

  /** `action_args["scroll_x"] = max(min(action_args["scroll_x"], 5), -5)`, then the same for `scroll_y`. */
  method ClampInPlace(args: map<string, Json>) returns (r: Result<map<string, Json>, AgentError>)
    ensures r == DispatchedArgs(JStr("scroll"), args)
  {
    var current := args;
    if "scroll_x" !in current {
      return Failure(KeyError("scroll_x"));
    }
    var x := ClampValue(current["scroll_x"]);
    if x.Failure? {
      return Failure(x.error);
    }
    current := current["scroll_x" := x.value];
    if "scroll_y" !in current {
      return Failure(KeyError("scroll_y"));
    }
    var y := ClampValue(current["scroll_y"]);
    if y.Failure? {
      return Failure(y.error);
    }
    current := current["scroll_y" := y.value];
    r := Success(current);
  }

  // ---------------------------------------------------------------------------------
  // The conversation loop

  /** How one item is handled when `n` calls have been made on the computer. */
  type Handler = (Json, nat) -> Handled

  function HandlerOf(acts: nat -> Outcome<AgentError>, shots: nat -> Result<string, AgentError>): Handler
  {
    (item: Json, n: nat) => HandleItemRun(item, acts, shots, n)
  }

  /** `for item in response["output"]: items += handle_item(item, computer)`, with `n` calls made before. */
  function HandleAll(outputs: seq<Json>, handle: Handler, n: nat): Handled
    decreases |outputs|
  {
    if outputs == [] then Handled([], Success([]))
    else
      var before := HandleAll(outputs[..|outputs| - 1], handle, n);
      if before.result.Failure? then before
      else
        var h := handle(outputs[|outputs| - 1], n + |before.calls|);
        Handled(before.calls + h.calls, if h.result.Failure? then h.result else Success(before.result.value + h.result.value))
  }

  /** The output items a reply answers: those of type `computer_call` with this `call_id`. */
  predicate AnswersCall(outputs: seq<Json>, reply: Json)
  {
    exists i :: 0 <= i < |outputs| && IsCallWithId(outputs[i], reply)
  }

  predicate IsCallWithId(item: Json, reply: Json)
  {
    && item.JObj? && Field(item, "type") == Success(JStr("computer_call")) && "call_id" in item.fields
    && reply.JObj? && "call_id" in reply.fields && reply.fields["call_id"] == item.fields["call_id"]
  }

  predicate IsCallOutput(reply: Json)
  {
    reply.JObj? && "type" in reply.fields && reply.fields["type"] == JStr("computer_call_output")
  }

  /** What one item's handler adds answers that item, when it is a `computer_call`. */
  lemma ItemAnswersCall(item: Json, acts: nat -> Outcome<AgentError>, shots: nat -> Result<string, AgentError>, n: nat)
    requires HandleItemRun(item, acts, shots, n).result.Success?
    ensures var added := HandleItemRun(item, acts, shots, n).result.value;
      forall j :: 0 <= j < |added| ==> IsCallOutput(added[j]) && IsCallWithId(item, added[j])
  {
    if Field(item, "type") == Success(JStr("computer_call")) {
      ComputerCallReply(item, acts, shots, n);
    } else if Field(item, "type").Success? {
      OnlyComputerCallsAct(item, acts, shots, n);
    }
  }

  /** Every item the handlers add is a `computer_call_output` answering a `computer_call` of the reply, by its `call_id`. */
  lemma {:induction false} HandlersAnswerCalls(outputs: seq<Json>, acts: nat -> Outcome<AgentError>, shots: nat -> Result<string, AgentError>, n: nat)
    requires HandleAll(outputs, HandlerOf(acts, shots), n).result.Success?
    ensures var added := HandleAll(outputs, HandlerOf(acts, shots), n).result.value;
      forall j :: 0 <= j < |added| ==> IsCallOutput(added[j]) && AnswersCall(outputs, added[j])
    decreases |outputs|
  {
    if outputs != [] {
      var handle := HandlerOf(acts, shots);
      var init, last := outputs[..|outputs| - 1], outputs[|outputs| - 1];
      var before := HandleAll(init, handle, n);
      HandlersAnswerCalls(init, acts, shots, n);
      var m := n + |before.calls|;
      var h := HandleItemRun(last, acts, shots, m);
      assert handle(last, m) == h;
      ItemAnswersCall(last, acts, shots, m);
      var added := HandleAll(outputs, handle, n).result.value;
      assert added == before.result.value + h.result.value;
      forall j | 0 <= j < |added|
        ensures IsCallOutput(added[j]) && AnswersCall(outputs, added[j])
      {
        if j < |before.result.value| {
          assert added[j] == before.result.value[j];
          var i :| 0 <= i < |init| && IsCallWithId(init[i], added[j]);
          assert outputs[i] == init[i];
        } else {
          assert added[j] == h.result.value[j - |before.result.value|];
          assert IsCallWithId(outputs[|outputs| - 1], added[j]);
        }
      }
    }
  }

  /** `handle` answers every item as `handle_item` does on this computer. */
  ghost predicate Handles(handle: Handler, acts: nat -> Outcome<AgentError>, shots: nat -> Result<string, AgentError>)
  {
    forall item: Json, n: nat {:trigger HandleItemRun(item, acts, shots, n)} :: handle(item, n) == HandleItemRun(item, acts, shots, n)
  }

  /** The handler the conversation is specified with is `handle_item` itself. */
  lemma HandlerOfHandles(acts: nat -> Outcome<AgentError>, shots: nat -> Result<string, AgentError>)
    ensures Handles(HandlerOf(acts, shots), acts, shots)
  {
  }

  /** The loop over the reply's output items; `handle` is `handle_item` on this computer, as a value the specification can name. */
  method HandleOutputs(outputs: seq<Json>, computer: Computer, ghost handle: Handler) returns (r: Result<seq<Json>, AgentError>)
    requires Handles(handle, computer.acts, computer.shots)
    modifies computer
    ensures var h := HandleAll(outputs, handle, |old(computer.calls)|);
      computer.calls == old(computer.calls) + h.calls && r == h.result
  {
    ghost var n := |computer.calls|;
    ghost var calls0 := computer.calls;
    ghost var done := Handled([], Success([]));
    var added: seq<Json> := [];
    var i := 0;
    while i < |outputs|
      invariant i <= |outputs| && done == HandleAll(outputs[..i], handle, n)
      invariant computer.calls == calls0 + done.calls && done.result == Success(added)
    {
      var handled := HandleOne(outputs[i], computer, handle);
      HandleAllStep(outputs, i, handle, n);
      done := HandleAll(outputs[..i + 1], handle, n);
      assert computer.calls == calls0 + done.calls;
      if handled.Failure? {
        HandleAllStays(outputs, i + 1, handle, n);
        return Failure(handled.error);
      }
      added := added + handled.value;
      i := i + 1;
    }
    assert outputs[..i] == outputs;
    r := Success(added);
  }

  lemma HandleAllStep(outputs: seq<Json>, i: nat, handle: Handler, n: nat)
    requires i < |outputs| && HandleAll(outputs[..i], handle, n).result.Success?
    ensures var before := HandleAll(outputs[..i], handle, n);
      var h := handle(outputs[i], n + |before.calls|);
      HandleAll(outputs[..i + 1], handle, n)
        == Handled(before.calls + h.calls, if h.result.Failure? then h.result else Success(before.result.value + h.result.value))
  {
    assert outputs[..i + 1][..i] == outputs[..i] && outputs[..i + 1][i] == outputs[i];
  }

  /** `handle_item` on one output item, stated through a handler that answers as it does. */
  method HandleOne(item: Json, computer: Computer, ghost handle: Handler) returns (r: Result<seq<Json>, AgentError>)
    requires Handles(handle, computer.acts, computer.shots)
    modifies computer
    ensures var h := handle(item, |old(computer.calls)|);
      computer.calls == old(computer.calls) + h.calls && r == h.result
  {
    r := HandleItem(item, computer);
    assert handle(item, |old(computer.calls)|) == HandleItemRun(item, computer.acts, computer.shots, |old(computer.calls)|);
  }

  /** Once a handler has raised, the later items are not handled. */
  lemma {:induction false} HandleAllStays(outputs: seq<Json>, i: nat, handle: Handler, n: nat)
    requires i <= |outputs| && HandleAll(outputs[..i], handle, n).result.Failure?
    ensures HandleAll(outputs, handle, n) == HandleAll(outputs[..i], handle, n)
    decreases |outputs| - i
  {
    if i < |outputs| {
      assert outputs[..i + 1][..i] == outputs[..i];
      HandleAllStays(outputs, i + 1, handle, n);
    } else {
      assert outputs[..i] == outputs;
    }
  }

  /** The model behind `create_response`: the inputs it was sent, and its replies in order (`None`: a response without `output`). */
  class ModelServer {
    var requests: seq<seq<Json>>
    const replies: seq<Option<seq<Json>>>

    constructor (replies: seq<Option<seq<Json>>>)
      ensures requests == [] && this.replies == replies
    {
      requests := [];
      this.replies := replies;
    }

    /** A server with no replies left answers without `output`. */
    method CreateResponse(input: seq<Json>) returns (output: Option<seq<Json>>)
      modifies this
      ensures requests == old(requests) + [input]
      ensures output == if |old(requests)| < |replies| then replies[|old(requests)|] else None
    {
      output := if |requests| < |replies| then replies[|requests|] else None;
      requests := requests + [input];
    }
  }

  /** One turn of the inner loop, given the model's reply: the conversation it leaves, or the exception. */
  function ExchangeRun(items: seq<Json>, reply: Option<seq<Json>>, acts: nat -> Outcome<AgentError>,
                       shots: nat -> Result<string, AgentError>, n: nat): (d: Handled)
    ensures reply.None? ==> d == Handled([], Failure(ValueError("No output from model")))
    ensures reply.Some? ==> d.calls == HandleAll(reply.value, HandlerOf(acts, shots), n).calls
    ensures d.result.Success? ==>
      && reply.Some?
      && |d.result.value| >= |items| + |reply.value|
      && d.result.value[..|items|] == items
      && d.result.value[|items|..|items| + |reply.value|] == reply.value
      && HandleAll(reply.value, HandlerOf(acts, shots), n).result.Success?
      && d.result.value[|items| + |reply.value|..] == HandleAll(reply.value, HandlerOf(acts, shots), n).result.value
  {
    match reply
    case None => Handled([], Failure(ValueError("No output from model")))
    case Some(outputs) =>
      var h := HandleAll(outputs, HandlerOf(acts, shots), n);
      Handled(h.calls, if h.result.Failure? then h.result else Success(items + outputs + h.result.value))
  }

  /** `items[-1].get("role") == "assistant"`. */
  function LastIsAssistant(items: seq<Json>): (r: Result<bool, AgentError>)
    requires items != []
    ensures r.Success? <==> items[|items| - 1].JObj?
    ensures r.Success? ==> (r.value <==> "role" in items[|items| - 1].fields && items[|items| - 1].fields["role"] == JStr("assistant"))
  {
    match FieldOr(items[|items| - 1], "role", JNull)
    case Failure(e) => Failure(e)
    case Success(role) => Success(role == JStr("assistant"))
  }

  /** The item the outer loop appends for what the user typed. */
  function UserItem(text: string): Json
  {
    JObj(map["role" := JStr("user"), "content" := JStr(text)])
  }

  /** A turn: ask the model with the conversation so far, append its output, then what the handlers return. */
  method Exchange(items: seq<Json>, computer: Computer, model: ModelServer) returns (r: Result<seq<Json>, AgentError>)
    modifies computer, model
    ensures model.requests == old(model.requests) + [items]
    ensures var reply := if |old(model.requests)| < |model.replies| then model.replies[|old(model.requests)|] else None;
      var d := ExchangeRun(items, reply, computer.acts, computer.shots, |old(computer.calls)|);
      computer.calls == old(computer.calls) + d.calls && r == d.result
  {
    var output := model.CreateResponse(items);
    if output.None? {
      return Failure(ValueError("No output from model"));
    }
    var extended := items + output.value;
    HandlerOfHandles(computer.acts, computer.shots);
    var handled := HandleOutputs(output.value, computer, HandlerOf(computer.acts, computer.shots));
    if handled.Failure? {
      return Failure(handled.error);
    }
    r := Success(extended + handled.value);
  }

  /** How `main` ends: `input()` raising `EOFError` once the user's lines are used up, or an exception of a turn. */
  datatype MainEnd = InputExhausted | Stopped(error: AgentError)

  /**
   * `main` once the environment is entered: for each line the user types, append it
   * and let the model and the computer take turns until the last item is the
   * assistant's. The loop only ends by an exception.
   */
  method Converse(inputs: seq<string>, computer: Computer, model: ModelServer) returns (items: seq<Json>, end: MainEnd)
    modifies computer, model
    ensures end == InputExhausted ==> |items| >= |inputs|
    ensures forall i :: |old(model.requests)| <= i < |model.requests| ==>
      |model.requests[i]| <= |items| && model.requests[i] == items[..|model.requests[i]|]
  {
    items := [];
    var k := 0;
    while k < |inputs|
      invariant k <= |inputs| && |items| >= k
      invariant |old(model.requests)| <= |model.requests|
      invariant forall i :: |old(model.requests)| <= i < |model.requests| ==>
        |model.requests[i]| <= |items| && model.requests[i] == items[..|model.requests[i]|]
      decreases |inputs| - k
    {
      items := items + [UserItem(inputs[k])];
      k := k + 1;
      var done := false;
      while !done
        invariant |items| >= k
        invariant |old(model.requests)| <= |model.requests|
        invariant forall i :: |old(model.requests)| <= i < |model.requests| ==>
          |model.requests[i]| <= |items| && model.requests[i] == items[..|model.requests[i]|]
        decreases if |model.requests| < |model.replies| then |model.replies| - |model.requests| else 0, !done
      {
        ghost var before := items;
        var turn := Exchange(items, computer, model);
        if turn.Failure? {
          return items, Stopped(turn.error);
        }
        items := turn.value;
        assert items[..|before|] == before;
        forall i | |old(model.requests)| <= i < |model.requests|
          ensures |model.requests[i]| <= |items| && model.requests[i] == items[..|model.requests[i]|]
        {
          if i < |model.requests| - 1 {
            assert model.requests[i] == before[..|model.requests[i]|];
          }
        }
        var last := LastIsAssistant(items);
        if last.Failure? {
          return items, Stopped(last.error);
        }
        done := last.value;
      }
    }
    end := InputExhausted;
  }
}
