/**
 * The conversation loop of the Rust agent (`AnthropicAgent::run` in ui_act/src/agent.rs).
 *
 * The loop talks to three parties the model cannot see inside: the computer environment
 * (screenshots, the screen width, mouse and keyboard actions), the model's HTTP API and
 * the terminal the user types into. Each becomes a class that logs what it is asked and
 * answers from a script fixed in advance. Image shrinking, PNG/base64 encoding and the
 * floating-point coordinate translation are parameters (`Imaging`).
 *
 * The whole run is specified by functions: `CaptureResult` for the screenshot taken at
 * the start and after every action, `Step` and `Dispatch` for the blocks of one
 * response, `Round` for one pass of the loop and `RunFrom`/`RunSpec` for the run. The
 * methods of `Agent` are proved to follow them, and the lemmas at the end prove the
 * conversation protocol about the functions.
 */
module Agent {
  import opened Wrappers
  import opened Text
  import Device

  type U32 = Device.U32

  // ---------------------------------------------------------------- messages

  datatype Role = User | Assistant

  /** The tool name the agent declares and the only one whose uses it executes. */
  const ToolName: string := "computer"

  datatype ImageSource = Base64(mediaType: string, data: string)

  datatype Coordinate = Coordinate(x: U32, y: U32)

  /** The actions of the `computer` tool the agent understands. */
  datatype ToolInput =
    | Screenshot
    | LeftClick(coordinate: Coordinate)
    | RightClick(coordinate: Coordinate)
    | DoubleClick(coordinate: Coordinate)
    | Type(text: string)
    | Key(text: string)

  datatype ContentBlock =
    | TextBlock(text: string)
    | ImageBlock(source: ImageSource)
    | ToolUse(id: string, name: string, input: ToolInput)
    | ToolResult(content: seq<ContentBlock>, toolUseId: string, isError: bool)

  datatype Message = Message(role: Role, content: seq<ContentBlock>)

  datatype ApiResponse = ApiResponse(content: seq<ContentBlock>, stopReason: string)

  const ImageMediaType: string := "image/png"

  // ---------------------------------------------------------------- the request

  const ModelName: string := "claude-sonnet-4-20250514"
  const MaxTokens: nat := 1024
  const ToolKind: string := "computer_20250124"
  const DisplayNumber: nat := 1

  datatype ToolSpec = ToolSpec(kind: string, name: string, displayWidth: nat, displayHeight: nat, displayNumber: nat)

  datatype Request = Request(model: string, maxTokens: nat, tools: seq<ToolSpec>, messages: seq<Message>)

  /** The body `get_response` posts: one `computer` tool sized to the screenshot, and the conversation. */
  function RequestFor(width: nat, height: nat, messages: seq<Message>): Request
  {
    Request(ModelName, MaxTokens, [ToolSpec(ToolKind, ToolName, width, height, DisplayNumber)], messages)
  }

  // ---------------------------------------------------------------- images

  /** The longest side the screenshots are shrunk to before they are sent. */
  const MaxWidth: nat := 1024
  const MaxHeight: nat := 768

  datatype Picture = Picture(width: nat, height: nat, pixels: seq<int>)

  /** Screenshot width over screen width: the factor between model and screen coordinates. */
  datatype Scale = Scale(pictureWidth: nat, screenWidth: U32)

  /**
   * The floating-point parts of the loop: `img_shrink(picture, max width, max height)`,
   * `rgb_image_to_base64_png` (which may fail) and `(c as f32 / scale).round() as u32`.
   */
  datatype Imaging = Imaging(
    shrink: (Picture, nat, nat) -> Picture,
    encode: Picture -> Option<string>,
    translate: (U32, Scale) -> U32)

  /** A screenshot as the loop keeps it: the shrunk picture, the scale it gives and its PNG text. */
  datatype Snapshot = Snapshot(picture: Picture, scale: Scale, png: string)

  // ---------------------------------------------------------------- the environment

  /** The calls the loop makes on the `ComputerEnvironment` it is given. */
  datatype EnvCall =
    | GetScreenshot
    | GetWidth
    | MoveMouse(x: U32, y: U32)
    | ClickLeft
    | ClickRight
    | ClickDouble
    | TypeText(text: string)
    | PressKey(keys: string)

  /** What the environment answers one call with. */
  datatype EnvAnswer = Refused | Accepted | Shot(picture: Picture) | Measured(size: U32)

  /** The `k`-th answer of the script; a call past its end is refused. */
  function AnswerAt(answers: seq<EnvAnswer>, k: nat): EnvAnswer
  {
    if k < |answers| then answers[k] else Refused
  }

  /** A call succeeds when its answer is of its kind: a picture, a size, or an acknowledgement. */
  predicate Fits(call: EnvCall, answer: EnvAnswer)
  {
    match call
    case GetScreenshot => answer.Shot?
    case GetWidth => answer.Measured?
    case _ => answer.Accepted?
  }

  datatype AgentError =
    | EnvironmentFailed(call: EnvCall)
    | EncodingFailed
    | RequestFailed
    | StatusNotSuccess
    | BodyUnreadable
    | ResponseMalformed
    | UnknownBlock
    | StdinFailed

  /** An environment whose answers are scripted; it logs every call it receives. */
  class Environment {
    var calls: seq<EnvCall>
    const answers: seq<EnvAnswer>

    constructor (answers: seq<EnvAnswer>)
      ensures this.answers == answers && calls == []
    {
      this.answers := answers;
      calls := [];
    }

    method Perform(call: EnvCall) returns (answer: EnvAnswer)
      modifies this
      ensures calls == old(calls) + [call]
      ensures answer == AnswerAt(answers, |old(calls)|)
    {
      answer := AnswerAt(answers, |calls|);
      calls := calls + [call];
    }
  }

  // ---------------------------------------------------------------- the model's API

  datatype Body = Unreadable | Malformed | Parsed(response: ApiResponse)

  /** The HTTP exchange of one request: not sent at all, or a status and a body. */
  datatype HttpReply = NotSent | Replied(success: bool, body: Body)

  function ReplyAt(replies: seq<HttpReply>, k: nat): HttpReply
  {
    if k < |replies| then replies[k] else NotSent
  }

  /** The client of the model's API: it logs the requests and answers from a script. */
  class ModelClient {
    var requests: seq<Request>
    const replies: seq<HttpReply>

    constructor (replies: seq<HttpReply>)
      ensures this.replies == replies && requests == []
    {
      this.replies := replies;
      requests := [];
    }

    /** `get_response(width, height, messages)`. */
    method GetResponse(width: nat, height: nat, messages: seq<Message>) returns (reply: HttpReply)
      modifies this
      ensures requests == old(requests) + [RequestFor(width, height, messages)]
      ensures reply == ReplyAt(replies, |old(requests)|)
    {
      reply := ReplyAt(replies, |requests|);
      requests := requests + [RequestFor(width, height, messages)];
    }
  }

  /**
   * What the loop makes of an HTTP exchange. A status that is not a success is an error
   * even before the body is looked at, and so is a body that cannot be read or parsed.
   */
  function ResponseOf(reply: HttpReply): (r: Result<ApiResponse, AgentError>)
    ensures r.Success? <==> reply.Replied? && reply.success && reply.body.Parsed?
    ensures r.Success? ==> r.value == reply.body.response
  {
    match reply
    case NotSent => Failure(RequestFailed)
    case Replied(success, body) =>
      if !success then
        (if body.Unreadable? then Failure(BodyUnreadable) else Failure(StatusNotSuccess))
      else
        match body
        case Unreadable => Failure(BodyUnreadable)
        case Malformed => Failure(ResponseMalformed)
        case Parsed(response) => Success(response)
  }

  // ---------------------------------------------------------------- the terminal

  datatype LineReply = Line(text: string) | EndOfInput | ReadFailed

  /** The `k`-th line read from standard input; past the script standard input is at its end. */
  function LineAt(lines: seq<LineReply>, k: nat): LineReply
  {
    if k < |lines| then lines[k] else EndOfInput
  }

  class Terminal {
    var read: nat
    const lines: seq<LineReply>

    constructor (lines: seq<LineReply>)
      ensures this.lines == lines && read == 0
    {
      this.lines := lines;
      read := 0;
    }

    method NextLine() returns (line: LineReply)
      modifies this
      ensures read == old(read) + 1
      ensures line == LineAt(lines, old(read))
    {
      line := LineAt(lines, read);
      read := read + 1;
    }
  }

  /** What a line typed at the prompt means for the loop. */
  datatype UserInput = Quit | Says(text: string) | Broken

  /** Text the user can send: trimmed, not empty, and not `exit` in any case. */
  predicate IsUserText(text: string)
  {
    text != [] && !IsRustWhitespace(text[0]) && !IsRustWhitespace(text[|text| - 1])
    && !EqIgnoreAsciiCase(text, "exit")
  }

  /** An empty line after trimming, `exit` in any case, or the end of input ends the run. */
  function ReadInput(line: LineReply): (r: UserInput)
    ensures r.Broken? <==> line.ReadFailed?
    ensures line.EndOfInput? ==> r.Quit?
    ensures r.Says? ==> line.Line? && r.text == Trim(line.text) && IsUserText(r.text)
    ensures line.Line? && IsUserText(Trim(line.text)) ==> r == Says(Trim(line.text))
  {
    match line
    case ReadFailed => Broken
    case EndOfInput => Quit
    case Line(text) =>
      var input := Trim(text);
      if input == [] || EqIgnoreAsciiCase(input, "exit") then Quit else Says(input)
  }

  // ---------------------------------------------------------------- screenshots

  /** The calls a screenshot takes: the capture, and the screen width when the capture worked. */
  function CaptureCalls(answers: seq<EnvAnswer>, m: nat): seq<EnvCall>
  {
    if AnswerAt(answers, m).Shot? then [GetScreenshot, GetWidth] else [GetScreenshot]
  }

  /**
   * Lines 101, 102 and 108 (and 180, 181 and 185 after an action): capture, shrink,
   * measure the screen, encode; the first step that fails is the error.
   */
  function CaptureResult(answers: seq<EnvAnswer>, m: nat, imaging: Imaging): Result<Snapshot, AgentError>
  {
    var shot := AnswerAt(answers, m);
    if !shot.Shot? then Failure(EnvironmentFailed(GetScreenshot))
    else
      var picture := imaging.shrink(shot.picture, MaxWidth, MaxHeight);
      var width := AnswerAt(answers, m + 1);
      if !width.Measured? then Failure(EnvironmentFailed(GetWidth))
      else
        match imaging.encode(picture)
        case None => Failure(EncodingFailed)
        case Some(png) => Success(Snapshot(picture, Scale(picture.width, width.size), png))
  }

  // ---------------------------------------------------------------- one block

  /** The environment calls an action makes; a click first moves to the translated point. */
  function ActionCalls(input: ToolInput, scale: Scale, translate: (U32, Scale) -> U32): seq<EnvCall>
  {
    match input
    case Screenshot => []
    case LeftClick(c) => [MoveMouse(translate(c.x, scale), translate(c.y, scale)), ClickLeft]
    case RightClick(c) => [MoveMouse(translate(c.x, scale), translate(c.y, scale)), ClickRight]
    case DoubleClick(c) => [MoveMouse(translate(c.x, scale), translate(c.y, scale)), ClickDouble]
    case Type(text) => [TypeText(text)]
    case Key(text) => [PressKey(text)]
  }

  /** The index of the first call of `calls` that fails when made from the `m`-th answer on. */
  function Misfit(calls: seq<EnvCall>, answers: seq<EnvAnswer>, m: nat): (k: nat)
    ensures k <= |calls|
    ensures forall i :: 0 <= i < k ==> Fits(calls[i], AnswerAt(answers, m + i))
    ensures k < |calls| ==> !Fits(calls[k], AnswerAt(answers, m + k))
  {
    if calls == [] || !Fits(calls[0], AnswerAt(answers, m)) then 0
    else 1 + Misfit(calls[1..], answers, m + 1)
  }

  /** The tool result that answers the tool use `id`: the new screenshot, not an error. */
  function ScreenshotResult(id: string, png: string): ContentBlock
  {
    ToolResult([ImageBlock(Base64(ImageMediaType, png))], id, false)
  }

  /**
   * Where the handling of a response stands: the environment's whole log, the tool
   * results so far, the action counter, the current screenshot and whether an error
   * has ended the handling.
   */
  datatype Turn = Turn(calls: seq<EnvCall>, results: seq<ContentBlock>, actions: nat, snapshot: Snapshot, outcome: Outcome<AgentError>)

  /**
   * One block of a response (lines 138-198). Text and images do nothing, tools other
   * than `computer` do nothing, a tool result is an error, and a `computer` use counts
   * one action, performs it and answers with a new screenshot.
   */
  function Step(t: Turn, block: ContentBlock, answers: seq<EnvAnswer>, imaging: Imaging): Turn
  {
    match block
    case TextBlock(_) => t
    case ImageBlock(_) => t
    case ToolResult(_, _, _) => t.(outcome := Fail(UnknownBlock))
    case ToolUse(id, name, input) =>
      if name != ToolName then t
      else
        var counted := t.(actions := t.actions + 1);
        var action := ActionCalls(input, t.snapshot.scale, imaging.translate);
        var k := Misfit(action, answers, |t.calls|);
        if k < |action| then
          counted.(calls := t.calls + action[..k + 1], outcome := Fail(EnvironmentFailed(action[k])))
        else
          var acted := t.calls + action;
          var captured := acted + CaptureCalls(answers, |acted|);
          match CaptureResult(answers, |acted|, imaging)
          case Failure(e) => counted.(calls := captured, outcome := Fail(e))
          case Success(shot) => counted.(calls := captured, results := t.results + [ScreenshotResult(id, shot.png)], snapshot := shot)
  }

  /** All blocks of a response in order, stopping at the first error (lines 137-199). */
  function Dispatch(blocks: seq<ContentBlock>, start: Turn, answers: seq<EnvAnswer>, imaging: Imaging): Turn
  {
    if blocks == [] then start
    else
      var t := Dispatch(blocks[..|blocks| - 1], start, answers, imaging);
      if t.outcome.Fail? then t else Step(t, blocks[|blocks| - 1], answers, imaging)
  }

  // ---------------------------------------------------------------- the loop

  /** The oracles a run is played against. */
  datatype World = World(answers: seq<EnvAnswer>, replies: seq<HttpReply>, lines: seq<LineReply>, imaging: Imaging)

  /**
   * The state at the top of the loop: the conversation, the current screenshot, the
   * action counter and the logs of the environment, the client and the terminal.
   */
  datatype Session = Session(
    messages: seq<Message>,
    snapshot: Snapshot,
    actions: nat,
    calls: seq<EnvCall>,
    requests: seq<Request>,
    linesRead: nat)

  datatype RoundEnd = Continue(next: Session) | Stop(last: Session, outcome: Outcome<AgentError>)

  /** One pass of the loop (lines 116-243). */
  function Round(w: World, s: Session): (r: RoundEnd)
    ensures r.Continue? ==> |s.requests| < |w.replies| && |r.next.requests| == |s.requests| + 1
  {
    var sent := s.(requests := s.requests + [RequestFor(s.snapshot.picture.width, s.snapshot.picture.height, s.messages)]);
    match ResponseOf(ReplyAt(w.replies, |s.requests|))
    case Failure(e) => Stop(sent, Fail(e))
    case Success(response) =>
      var t := Dispatch(response.content, Turn(s.calls, [], s.actions, s.snapshot, Pass), w.answers, w.imaging);
      var acted := sent.(calls := t.calls, actions := t.actions, snapshot := t.snapshot);
      if t.outcome.Fail? then Stop(acted, t.outcome)
      else
        var answered := acted.(messages := s.messages + [Message(Assistant, response.content)]);
        if t.results != [] then Continue(answered.(messages := answered.messages + [Message(User, t.results)]))
        else
          var asked := answered.(linesRead := s.linesRead + 1);
          match ReadInput(LineAt(w.lines, s.linesRead))
          case Broken => Stop(asked, Fail(StdinFailed))
          case Quit => Stop(asked, Pass)
          case Says(text) => Continue(asked.(messages := asked.messages + [Message(User, [TextBlock(text)])]))
  }

  /** The loop from `s` to its end; every pass sends one request, so the replies bound it. */
  function RunFrom(w: World, s: Session): (Session, Outcome<AgentError>)
    decreases |w.replies| - |s.requests|
  {
    match Round(w, s)
    case Stop(last, outcome) => (last, outcome)
    case Continue(next) => RunFrom(w, next)
  }

  /** The first message: the user's prompt and the first screenshot (lines 103-111). */
  function Opening(prompt: string, png: string): Message
  {
    Message(User, [TextBlock(prompt), ImageBlock(Base64(ImageMediaType, png))])
  }

  /** What a run leaves behind: the conversation, the counter, the three logs and the result. */
  datatype Ending = Ending(
    messages: seq<Message>,
    actions: nat,
    calls: seq<EnvCall>,
    requests: seq<Request>,
    linesRead: nat,
    outcome: Outcome<AgentError>)

  /** `run(env, prompt)` from the given counter and logs. */
  function RunSpec(w: World, prompt: string, actions: nat, calls: seq<EnvCall>, requests: seq<Request>, linesRead: nat): Ending
  {
    var started := calls + CaptureCalls(w.answers, |calls|);
    match CaptureResult(w.answers, |calls|, w.imaging)
    case Failure(e) => Ending([], actions, started, requests, linesRead, Fail(e))
    case Success(shot) =>
      var (last, outcome) := RunFrom(w, Session([Opening(prompt, shot.png)], shot, actions, started, requests, linesRead));
      Ending(last.messages, last.actions, last.calls, last.requests, last.linesRead, outcome)
  }

  // ---------------------------------------------------------------- the agent

  /** One environment call that reports only success or failure. */
  method Call(env: Environment, call: EnvCall) returns (r: Outcome<AgentError>)
    modifies env
    ensures env.calls == old(env.calls) + [call]
    ensures r == if Fits(call, AnswerAt(env.answers, |old(env.calls)|)) then Pass else Fail(EnvironmentFailed(call))
  {
    var answer := env.Perform(call);
    r := if Fits(call, answer) then Pass else Fail(EnvironmentFailed(call));
  }

  /** `img_shrink(env.screenshot()?, ...)`, `env.width()?` and the PNG encoding of the picture. */
  method Capture(env: Environment, imaging: Imaging) returns (r: Result<Snapshot, AgentError>)
    modifies env
    ensures env.calls == old(env.calls) + CaptureCalls(env.answers, |old(env.calls)|)
    ensures r == CaptureResult(env.answers, |old(env.calls)|, imaging)
  {
    var shot := env.Perform(GetScreenshot);
    if !shot.Shot? {
      return Failure(EnvironmentFailed(GetScreenshot));
    }
    var picture := imaging.shrink(shot.picture, MaxWidth, MaxHeight);
    var width := env.Perform(GetWidth);
    if !width.Measured? {
      return Failure(EnvironmentFailed(GetWidth));
    }
    var png := imaging.encode(picture);
    if png.None? {
      return Failure(EncodingFailed);
    }
    r := Success(Snapshot(picture, Scale(picture.width, width.size), png.value));
  }

  /** `env.mouse_move(x, y)?` followed by one click. */
  method MoveAndClick(env: Environment, x: U32, y: U32, click: EnvCall) returns (r: Outcome<AgentError>)
    modifies env
    ensures var action := [MoveMouse(x, y), click];
      var k := Misfit(action, env.answers, |old(env.calls)|);
      env.calls == old(env.calls) + (if k < |action| then action[..k + 1] else action)
      && r == if k < |action| then Fail(EnvironmentFailed(action[k])) else Pass
  {
    r := Call(env, MoveMouse(x, y));
    if r.Pass? {
      r := Call(env, click);
    }
  }

  /** The action of one `computer` tool use (lines 146-174). */
  method Act(env: Environment, input: ToolInput, scale: Scale, translate: (U32, Scale) -> U32) returns (r: Outcome<AgentError>)
    modifies env
    ensures var action := ActionCalls(input, scale, translate);
      var k := Misfit(action, env.answers, |old(env.calls)|);
      env.calls == old(env.calls) + (if k < |action| then action[..k + 1] else action)
      && r == if k < |action| then Fail(EnvironmentFailed(action[k])) else Pass
  {
    match input
    case Screenshot =>
      r := Pass;
    case LeftClick(c) =>
      r := MoveAndClick(env, translate(c.x, scale), translate(c.y, scale), ClickLeft);
    case RightClick(c) =>
      r := MoveAndClick(env, translate(c.x, scale), translate(c.y, scale), ClickRight);
    case DoubleClick(c) =>
      r := MoveAndClick(env, translate(c.x, scale), translate(c.y, scale), ClickDouble);
    case Type(text) =>
      r := Call(env, TypeText(text));
    case Key(text) =>
      r := Call(env, PressKey(text));
  }

  /** The blocks up to `i` handled, then block `i`. */
  lemma DispatchNext(blocks: seq<ContentBlock>, start: Turn, answers: seq<EnvAnswer>, imaging: Imaging, i: nat)
    requires i < |blocks| && Dispatch(blocks[..i], start, answers, imaging).outcome.Pass?
    ensures Dispatch(blocks[..i + 1], start, answers, imaging)
         == Step(Dispatch(blocks[..i], start, answers, imaging), blocks[i], answers, imaging)
  {
    assert blocks[..i + 1][..i] == blocks[..i];
  }

  /** Once a prefix of the blocks has failed, the later blocks are never looked at. */
  lemma {:induction false} DispatchStopsAtFailure(blocks: seq<ContentBlock>, start: Turn, answers: seq<EnvAnswer>, imaging: Imaging, j: nat)
    requires j <= |blocks|
    requires Dispatch(blocks[..j], start, answers, imaging).outcome.Fail?
    ensures Dispatch(blocks, start, answers, imaging) == Dispatch(blocks[..j], start, answers, imaging)
    decreases |blocks| - j
  {
    if j < |blocks| {
      var front := blocks[..|blocks| - 1];
      assert front[..j] == blocks[..j];
      DispatchStopsAtFailure(front, start, answers, imaging, j);
    } else {
      assert blocks[..j] == blocks;
    }
  }

  /** `AnthropicAgent`: the session identifier and the `action_count` cell. */
  class Agent {
    const sessionId: string
    var actionCount: nat

    constructor (sessionId: string)
      ensures this.sessionId == sessionId && actionCount == 0
    {
      this.sessionId := sessionId;
      actionCount := 0;
    }

    /** The body of `for block in &res.content` for one block; a tool result is pushed onto `results`. */
    method HandleBlock(env: Environment, block: ContentBlock, results: seq<ContentBlock>, snapshot: Snapshot, imaging: Imaging)
      returns (results': seq<ContentBlock>, after: Snapshot, r: Outcome<AgentError>)
      modifies this, env
      ensures Step(Turn(old(env.calls), results, old(actionCount), snapshot, Pass), block, env.answers, imaging)
           == Turn(env.calls, results', actionCount, after, r)
    {
      results', after, r := results, snapshot, Pass;
      match block
      case TextBlock(_) =>
      case ImageBlock(_) =>
      case ToolResult(_, _, _) =>
        r := Fail(UnknownBlock);
      case ToolUse(id, name, input) =>
        if name == ToolName {
          actionCount := actionCount + 1;
          r := Act(env, input, snapshot.scale, imaging.translate);
          if r.Fail? {
            return;
          }
          var shot := Capture(env, imaging);
          if shot.Failure? {
            r := Fail(shot.error);
            return;
          }
          after := shot.value;
          results' := results + [ScreenshotResult(id, after.png)];
        }
    }

    /** The loop over the blocks of one response; the results become the next user message. */
    method DispatchBlocks(env: Environment, blocks: seq<ContentBlock>, snapshot: Snapshot, imaging: Imaging)
      returns (results: seq<ContentBlock>, after: Snapshot, r: Outcome<AgentError>)
      modifies this, env
      ensures Dispatch(blocks, Turn(old(env.calls), [], old(actionCount), snapshot, Pass), env.answers, imaging)
           == Turn(env.calls, results, actionCount, after, r)
    {
      ghost var start := Turn(env.calls, [], actionCount, snapshot, Pass);
      results, after, r := [], snapshot, Pass;
      var i := 0;
      while i < |blocks|
        invariant 0 <= i <= |blocks|
        invariant Dispatch(blocks[..i], start, env.answers, imaging) == Turn(env.calls, results, actionCount, after, Pass)
        invariant r == Pass
      {
        DispatchNext(blocks, start, env.answers, imaging, i);
        results, after, r := HandleBlock(env, blocks[i], results, after, imaging);
        if r.Fail? {
          DispatchStopsAtFailure(blocks, start, env.answers, imaging, i + 1);
          return;
        }
        i := i + 1;
      }
      assert blocks[..i] == blocks;
    }

    /**
     * One pass of `loop` (lines 117-242): the request, the blocks of the response, then
     * the tool results or, when there are none, one line from the user. `stop` is a
     * `return` or a `break`.
     */
    method PlayRound(env: Environment, client: ModelClient, terminal: Terminal, messages: seq<Message>, snapshot: Snapshot, imaging: Imaging)
      returns (stop: bool, r: Outcome<AgentError>, messages': seq<Message>, after: Snapshot)
      modifies this, env, client, terminal
      ensures var w := World(env.answers, client.replies, terminal.lines, imaging);
        var s := Session(messages, snapshot, old(actionCount), old(env.calls), old(client.requests), old(terminal.read));
        var s' := Session(messages', after, actionCount, env.calls, client.requests, terminal.read);
        Round(w, s) == if stop then Stop(s', r) else Continue(s')
    {
      var reply := client.GetResponse(snapshot.picture.width, snapshot.picture.height, messages);
      var response := ResponseOf(reply);
      if response.Failure? {
        return true, Fail(response.error), messages, snapshot;
      }
      var content := response.value.content;
      var results, shot, o := DispatchBlocks(env, content, snapshot, imaging);
      if o.Fail? {
        return true, o, messages, shot;
      }
      messages' := messages + [Message(Assistant, content)];
      if results == [] {
        var line := terminal.NextLine();
        match ReadInput(line)
        case Broken =>
          return true, Fail(StdinFailed), messages', shot;
        case Quit =>
          return true, Pass, messages', shot;
        case Says(text) =>
          results := [TextBlock(text)];
      }
      messages' := messages' + [Message(User, results)];
      stop, r, after := false, Pass, shot;
    }

    /** `run(env, prompt)`: the opening screenshot and message, then the loop until it stops. */
    method Run(env: Environment, client: ModelClient, terminal: Terminal, prompt: string, imaging: Imaging)
      returns (r: Outcome<AgentError>, messages: seq<Message>)
      modifies this, env, client, terminal
      ensures RunSpec(World(env.answers, client.replies, terminal.lines, imaging), prompt,
                      old(actionCount), old(env.calls), old(client.requests), old(terminal.read))
           == Ending(messages, actionCount, env.calls, client.requests, terminal.read, r)
    {
      ghost var w := World(env.answers, client.replies, terminal.lines, imaging);
      var first := Capture(env, imaging);
      if first.Failure? {
        return Fail(first.error), [];
      }
      var snapshot := first.value;
      messages := [Opening(prompt, snapshot.png)];
      ghost var goal := RunFrom(w, Session(messages, snapshot, actionCount, env.calls, client.requests, terminal.read));
      while true
        invariant RunFrom(w, Session(messages, snapshot, actionCount, env.calls, client.requests, terminal.read)) == goal
        decreases |client.replies| - |client.requests|
      {
        var stop, o, next, after := PlayRound(env, client, terminal, messages, snapshot, imaging);
        messages, snapshot := next, after;
        if stop {
          return o, messages;
        }
      }
    }
  }
}
