/**
 * What the conversation loop of the Rust agent promises, proved about the functions
 * that specify it in module `Agent`: how the blocks of one response are answered,
 * what one pass of the loop adds to the conversation, and the shape of the whole run.
 */
module AgentProtocol {
  import opened Wrappers
  import opened Text
  import opened Agent

  // ---------------------------------------------------------------- one response

  predicate IsComputerUse(b: ContentBlock)
  {
    b.ToolUse? && b.name == ToolName
  }

  /** The ids of the `computer` tool uses among `blocks`, in order. */
  function ComputerIds(blocks: seq<ContentBlock>): (ids: seq<string>)
    ensures |ids| <= |blocks|
  {
    if blocks == [] then []
    else
      var last := blocks[|blocks| - 1];
      ComputerIds(blocks[..|blocks| - 1]) + (if IsComputerUse(last) then [last.id] else [])
  }

  /** A successful tool result for the tool use `id`, holding one PNG image. */
  predicate IsScreenshotResult(b: ContentBlock, id: string)
  {
    b.ToolResult? && b.toolUseId == id && !b.isError
    && |b.content| == 1 && b.content[0].ImageBlock? && b.content[0].source.mediaType == ImageMediaType
  }

  /** One tool result per id, in the same order. */
  predicate AnswersUses(results: seq<ContentBlock>, ids: seq<string>)
  {
    |results| == |ids| && forall i :: 0 <= i < |ids| ==> IsScreenshotResult(results[i], ids[i])
  }

  /** What one block does to the state the handling is in. */
  lemma StepEffect(t: Turn, b: ContentBlock, answers: seq<EnvAnswer>, imaging: Imaging)
    requires t.outcome.Pass?
    ensures var u := Step(t, b, answers, imaging);
      && t.calls <= u.calls
      && u.actions == t.actions + (if IsComputerUse(b) then 1 else 0)
      && (u.outcome.Fail? ==> u.results == t.results)
      && (u.outcome.Pass? ==> !b.ToolResult?)
      && (u.outcome.Pass? && IsComputerUse(b) ==> u.results == t.results + [ScreenshotResult(b.id, u.snapshot.png)])
      && (!IsComputerUse(b) ==> u.calls == t.calls && u.snapshot == t.snapshot && u.results == t.results)
      && (b.ToolResult? ==> u.outcome == Fail(UnknownBlock))
  {
  }

  /**
   * The environment calls one `computer` use makes: its action, translated with the
   * current screenshot's scale, then a new screenshot, which becomes current. A
   * failure stops the calls at the call that failed.
   */
  lemma StepCalls(t: Turn, b: ContentBlock, answers: seq<EnvAnswer>, imaging: Imaging)
    requires t.outcome.Pass? && IsComputerUse(b)
    ensures var u, action := Step(t, b, answers, imaging), ActionCalls(b.input, t.snapshot.scale, imaging.translate);
      && (u.outcome.Pass? ==>
            && u.calls == t.calls + action + [GetScreenshot, GetWidth]
            && CaptureResult(answers, |t.calls| + |action|, imaging) == Success(u.snapshot))
      && (u.outcome.Fail? ==> t.calls < u.calls <= t.calls + action + [GetScreenshot, GetWidth])
  {
    var action := ActionCalls(b.input, t.snapshot.scale, imaging.translate);
    var k := Misfit(action, answers, |t.calls|);
    if k < |action| {
      assert t.calls + action[..k + 1] <= t.calls + action + [GetScreenshot, GetWidth] by {
        assert action[..k + 1] <= action;
      }
    }
  }

  /**
   * What handling `blocks` from `start` promises of the state `t` it ends in: the
   * environment's log only grows and no more actions are counted than there are
   * `computer` uses; without error, every use is answered with one successful
   * screenshot result keyed by its id, in response order, one action is counted per
   * use, and no tool result block was among the blocks.
   */
  predicate HandledAsPromised(blocks: seq<ContentBlock>, start: Turn, t: Turn)
  {
    && start.calls <= t.calls
    && start.actions <= t.actions <= start.actions + |ComputerIds(blocks)|
    && (t.outcome.Pass? ==>
          && AnswersUses(t.results, ComputerIds(blocks))
          && t.actions == start.actions + |ComputerIds(blocks)|
          && (forall i :: 0 <= i < |blocks| ==> !blocks[i].ToolResult?)
          && (t.results == [] ==> t.calls == start.calls && t.snapshot == start.snapshot)
          && (t.results != [] ==> t.results[|t.results| - 1] == ScreenshotResult(ComputerIds(blocks)[|t.results| - 1], t.snapshot.png)))
  }

  /** Every response is handled as promised. */
  lemma {:induction false} DispatchAnswers(blocks: seq<ContentBlock>, start: Turn, answers: seq<EnvAnswer>, imaging: Imaging)
    requires start.outcome.Pass? && start.results == []
    ensures HandledAsPromised(blocks, start, Dispatch(blocks, start, answers, imaging))
  {
    if blocks != [] {
      var front, b := blocks[..|blocks| - 1], blocks[|blocks| - 1];
      assert blocks == front + [b];
      DispatchAnswers(front, start, answers, imaging);
      var t := Dispatch(front, start, answers, imaging);
      if t.outcome.Pass? {
        HandledOneMore(front, b, start, t, answers, imaging);
      } else {
        ComputerIdsSnoc(front, b);
      }
    }
  }

  lemma ComputerIdsSnoc(front: seq<ContentBlock>, b: ContentBlock)
    ensures ComputerIds(front + [b]) == ComputerIds(front) + (if IsComputerUse(b) then [b.id] else [])
  {
    assert (front + [b])[..|front|] == front;
  }

  /** Handling one more block after a good start keeps the promise. */
  lemma HandledOneMore(front: seq<ContentBlock>, b: ContentBlock, start: Turn, t: Turn, answers: seq<EnvAnswer>, imaging: Imaging)
    requires t.outcome.Pass? && HandledAsPromised(front, start, t)
    ensures HandledAsPromised(front + [b], start, Step(t, b, answers, imaging))
  {
    var blocks := front + [b];
    StepEffect(t, b, answers, imaging);
    ComputerIdsSnoc(front, b);
    var u := Step(t, b, answers, imaging);
    if u.outcome.Pass? {
      forall i | 0 <= i < |blocks|
        ensures !blocks[i].ToolResult?
      {
        if i < |front| {
          assert blocks[i] == front[i];
        }
      }
      if IsComputerUse(b) {
        AnswersOneMore(t.results, ComputerIds(front), b.id, u.snapshot.png);
      }
    }
  }

  lemma AnswersOneMore(results: seq<ContentBlock>, ids: seq<string>, id: string, png: string)
    requires AnswersUses(results, ids)
    ensures AnswersUses(results + [ScreenshotResult(id, png)], ids + [id])
  {
  }

  /** A response without `computer` tool uses touches nothing; it fails only for a tool result block. */
  lemma {:induction false} DispatchIdle(blocks: seq<ContentBlock>, start: Turn, answers: seq<EnvAnswer>, imaging: Imaging)
    requires start.outcome.Pass? && ComputerIds(blocks) == []
    ensures var t := Dispatch(blocks, start, answers, imaging);
      && t.calls == start.calls && t.results == start.results && t.actions == start.actions && t.snapshot == start.snapshot
      && (t.outcome.Pass? <==> forall i :: 0 <= i < |blocks| ==> !blocks[i].ToolResult?)
      && (t.outcome.Fail? ==> t.outcome == Fail(UnknownBlock))
  {
    if blocks != [] {
      var front, b := blocks[..|blocks| - 1], blocks[|blocks| - 1];
      assert ComputerIds(front) == [] && !IsComputerUse(b);
      DispatchIdle(front, start, answers, imaging);
      var t := Dispatch(front, start, answers, imaging);
      if t.outcome.Fail? {
        var i :| 0 <= i < |front| && front[i].ToolResult?;
        assert blocks[i] == front[i];
      } else {
        StepEffect(t, b, answers, imaging);
        forall i | 0 <= i < |front|
          ensures blocks[i] == front[i]
        {
        }
      }
    }
  }

  // ---------------------------------------------------------------- one pass of the loop

  /**
   * How a user message answers the assistant message before it: with one screenshot
   * result per `computer` use, or, when there was none, with the text the user typed.
   */
  predicate Answers(content: seq<ContentBlock>, reply: seq<ContentBlock>)
  {
    if ComputerIds(content) != [] then AnswersUses(reply, ComputerIds(content))
    else |reply| == 1 && reply[0].TextBlock? && IsUserText(reply[0].text)
  }

  function After(r: RoundEnd): Session
  {
    if r.Continue? then r.next else r.last
  }

  /**
   * Every pass sends exactly one request, sized to the current screenshot and carrying
   * the conversation so far; a reply that is not a parsed success stops the loop with
   * nothing else changed. The environment's log and the counter only grow, and at most
   * one line is read.
   */
  lemma RoundRequest(w: World, s: Session)
    ensures var after := After(Round(w, s));
      && after.requests == s.requests + [RequestFor(s.snapshot.picture.width, s.snapshot.picture.height, s.messages)]
      && s.calls <= after.calls
      && s.actions <= after.actions
      && s.linesRead <= after.linesRead <= s.linesRead + 1
    ensures var reply := ResponseOf(ReplyAt(w.replies, |s.requests|));
      reply.Failure? ==>
        Round(w, s) == Stop(s.(requests := s.requests + [RequestFor(s.snapshot.picture.width, s.snapshot.picture.height, s.messages)]), Fail(reply.error))
  {
    var reply := ResponseOf(ReplyAt(w.replies, |s.requests|));
    if reply.Success? {
      DispatchAnswers(reply.value.content, Turn(s.calls, [], s.actions, s.snapshot, Pass), w.answers, w.imaging);
    }
  }

  /**
   * A pass that continues adds the assistant's response and a user message answering
   * it; a pass that ends well adds the response, which used no `computer` tool, after
   * the user asked to stop; a pass that fails adds the response only when the terminal
   * failed.
   */
  lemma RoundMessages(w: World, s: Session)
    ensures var r, reply := Round(w, s), ResponseOf(ReplyAt(w.replies, |s.requests|));
      && (r.Continue? ==>
            && reply.Success?
            && |r.next.messages| == |s.messages| + 2
            && r.next.messages[..|s.messages|] == s.messages
            && r.next.messages[|s.messages|] == Message(Assistant, reply.value.content)
            && r.next.messages[|s.messages| + 1].role == User
            && Answers(reply.value.content, r.next.messages[|s.messages| + 1].content))
      && (r.Stop? && r.outcome.Pass? ==>
            && reply.Success?
            && r.last.messages == s.messages + [Message(Assistant, reply.value.content)]
            && ComputerIds(reply.value.content) == []
            && ReadInput(LineAt(w.lines, s.linesRead)).Quit?)
      && (r.Stop? && r.outcome.Fail? ==>
            r.last.messages == s.messages
            || (r.outcome == Fail(StdinFailed) && r.last.messages == s.messages + [Message(Assistant, reply.value.content)]))
  {
    var reply := ResponseOf(ReplyAt(w.replies, |s.requests|));
    var sent := s.(requests := s.requests + [RequestFor(s.snapshot.picture.width, s.snapshot.picture.height, s.messages)]);
    if reply.Failure? {
      assert Round(w, s) == Stop(sent, Fail(reply.error));
    } else {
      var content := reply.value.content;
      var start := Turn(s.calls, [], s.actions, s.snapshot, Pass);
      DispatchAnswers(content, start, w.answers, w.imaging);
      var t := Dispatch(content, start, w.answers, w.imaging);
      var acted := sent.(calls := t.calls, actions := t.actions, snapshot := t.snapshot);
      var answered := acted.(messages := s.messages + [Message(Assistant, content)]);
      if t.outcome.Fail? {
        assert Round(w, s) == Stop(acted, t.outcome);
      } else if t.results != [] {
        assert Round(w, s) == Continue(answered.(messages := answered.messages + [Message(User, t.results)]));
      } else {
        var asked := answered.(linesRead := s.linesRead + 1);
        match ReadInput(LineAt(w.lines, s.linesRead))
        case Says(text) =>
          assert Round(w, s) == Continue(asked.(messages := asked.messages + [Message(User, [TextBlock(text)])]));
          assert Answers(content, [TextBlock(text)]);
        case Quit =>
          assert Round(w, s) == Stop(asked, Pass);
        case Broken =>
          assert Round(w, s) == Stop(asked, Fail(StdinFailed));
      }
    }
  }

  /** A line is read from the terminal exactly when a response that used no `computer` tool was handled without error. */
  lemma RoundReadsLine(w: World, s: Session)
    ensures var r, reply := Round(w, s), ResponseOf(ReplyAt(w.replies, |s.requests|));
      After(r).linesRead == s.linesRead + 1 <==>
        reply.Success? && ComputerIds(reply.value.content) == []
        && Dispatch(reply.value.content, Turn(s.calls, [], s.actions, s.snapshot, Pass), w.answers, w.imaging).outcome.Pass?
  {
    var reply := ResponseOf(ReplyAt(w.replies, |s.requests|));
    var sent := s.(requests := s.requests + [RequestFor(s.snapshot.picture.width, s.snapshot.picture.height, s.messages)]);
    if reply.Failure? {
      assert Round(w, s) == Stop(sent, Fail(reply.error));
    } else {
      var content := reply.value.content;
      var start := Turn(s.calls, [], s.actions, s.snapshot, Pass);
      DispatchAnswers(content, start, w.answers, w.imaging);
      var t := Dispatch(content, start, w.answers, w.imaging);
      var acted := sent.(calls := t.calls, actions := t.actions, snapshot := t.snapshot);
      var answered := acted.(messages := s.messages + [Message(Assistant, content)]);
      if t.outcome.Fail? {
        assert Round(w, s) == Stop(acted, t.outcome);
      } else if t.results != [] {
        assert Round(w, s) == Continue(answered.(messages := answered.messages + [Message(User, t.results)]));
      } else {
        var asked := answered.(linesRead := s.linesRead + 1);
        match ReadInput(LineAt(w.lines, s.linesRead))
        case Says(text) =>
          assert Round(w, s) == Continue(asked.(messages := asked.messages + [Message(User, [TextBlock(text)])]));
        case Quit =>
          assert Round(w, s) == Stop(asked, Pass);
        case Broken =>
          assert Round(w, s) == Stop(asked, Fail(StdinFailed));
      }
    }
  }

  // ---------------------------------------------------------------- the whole run

  /** The user speaks at even positions, the assistant at odd ones. */
  predicate Alternates(messages: seq<Message>)
  {
    forall i :: 0 <= i < |messages| ==> messages[i].role == (if i % 2 == 0 then User else Assistant)
  }

  /** Every user message after an assistant message answers it. */
  predicate Paired(messages: seq<Message>)
  {
    forall i :: 0 <= i < |messages| - 1 && i % 2 == 1 ==> Answers(messages[i].content, messages[i + 1].content)
  }

  /** A conversation waiting for the model: alternating, paired, ending with the user. */
  predicate Awaiting(messages: seq<Message>)
  {
    Alternates(messages) && Paired(messages) && |messages| % 2 == 1
  }

  /** A conversation the user closed: it ends with an assistant message that used no `computer` tool. */
  predicate Closed(messages: seq<Message>)
  {
    |messages| % 2 == 0 && messages != [] && ComputerIds(messages[|messages| - 1].content) == []
  }

  /** Appending an assistant message and its answer keeps a conversation awaiting the model. */
  lemma AwaitingExtend(messages: seq<Message>, next: seq<Message>)
    requires Awaiting(messages)
    requires |next| == |messages| + 2 && next[..|messages|] == messages
    requires next[|messages|].role == Assistant && next[|messages| + 1].role == User
    requires Answers(next[|messages|].content, next[|messages| + 1].content)
    ensures Awaiting(next)
  {
    forall i | 0 <= i < |messages|
      ensures next[i] == messages[i]
    {
      assert next[..|messages|][i] == next[i];
    }
  }

  /** One pass from a conversation waiting for the model, in the terms of the whole run. */
  lemma RoundProtocol(w: World, s: Session)
    requires Awaiting(s.messages)
    ensures var r := Round(w, s);
      && After(r).requests == s.requests + [RequestFor(s.snapshot.picture.width, s.snapshot.picture.height, s.messages)]
      && s.calls <= After(r).calls && s.actions <= After(r).actions
      && s.messages <= After(r).messages
      && (r.Continue? ==> Awaiting(r.next.messages))
      && (r.Stop? ==> Alternates(r.last.messages) && Paired(r.last.messages))
      && (r.Stop? && r.outcome.Pass? ==> Closed(r.last.messages))
  {
    RoundRequest(w, s);
    RoundMessages(w, s);
    var r := Round(w, s);
    if r.Continue? {
      AwaitingExtend(s.messages, r.next.messages);
      assert r.next.messages[..|s.messages|] == s.messages;
    } else if r.last.messages != s.messages {
      var reply := ResponseOf(ReplyAt(w.replies, |s.requests|));
      assert r.last.messages == s.messages + [Message(Assistant, reply.value.content)];
      forall i | 0 <= i < |s.messages|
        ensures r.last.messages[i] == s.messages[i]
      {
      }
    }
  }

  /**
   * From a conversation waiting for the model, the loop only extends the conversation,
   * keeps it alternating and paired, and when it ends well the conversation ends with
   * an assistant message that used no `computer` tool.
   */
  lemma {:induction false} RunFromConversation(w: World, s: Session)
    requires Awaiting(s.messages)
    decreases |w.replies| - |s.requests|
    ensures var last := RunFrom(w, s).0;
      && s.messages <= last.messages
      && Alternates(last.messages) && Paired(last.messages)
      && s.calls <= last.calls && s.actions <= last.actions
      && (RunFrom(w, s).1.Pass? ==> Closed(last.messages))
  {
    RoundProtocol(w, s);
    var r := Round(w, s);
    if r.Continue? {
      RunFromConversation(w, r.next);
    }
  }

  /**
   * Every request the loop sends carries a prefix of the final conversation that ends
   * with the user, and at least one is sent.
   */
  lemma {:induction false} RunFromRequests(w: World, s: Session)
    requires Awaiting(s.messages)
    decreases |w.replies| - |s.requests|
    ensures var last := RunFrom(w, s).0;
      && s.requests < last.requests
      && last.requests[|s.requests|] == RequestFor(s.snapshot.picture.width, s.snapshot.picture.height, s.messages)
      && forall j :: |s.requests| <= j < |last.requests| ==>
           |last.requests[j].messages| % 2 == 1 && last.requests[j].messages <= last.messages
  {
    RoundProtocol(w, s);
    var r := Round(w, s);
    if r.Continue? {
      RunFromRequests(w, r.next);
      RunFromConversation(w, r.next);
      var last := RunFrom(w, r.next).0;
      assert last.requests[|s.requests|] == r.next.requests[|s.requests|];
    }
  }

  /**
   * A run starts from one screenshot: when it cannot be taken the run fails before any
   * request; otherwise the first request carries just the prompt and that screenshot,
   * sized to it, and the conversation keeps the shape of `RunFromConversation`.
   */
  lemma RunProtocol(w: World, prompt: string, actions: nat, calls: seq<EnvCall>, requests: seq<Request>, linesRead: nat)
    ensures var e, first := RunSpec(w, prompt, actions, calls, requests, linesRead), CaptureResult(w.answers, |calls|, w.imaging);
      && calls <= e.calls && actions <= e.actions && requests <= e.requests
      && (first.Failure? ==> e.messages == [] && e.requests == requests && e.outcome == Fail(first.error))
      && (first.Success? ==>
            && e.messages != [] && e.messages[0] == Opening(prompt, first.value.png)
            && Alternates(e.messages) && Paired(e.messages)
            && |requests| < |e.requests|
            && e.requests[|requests|] == RequestFor(first.value.picture.width, first.value.picture.height, [Opening(prompt, first.value.png)])
            && (e.outcome.Pass? ==> Closed(e.messages)))
  {
    var first := CaptureResult(w.answers, |calls|, w.imaging);
    if first.Success? {
      var s := Session([Opening(prompt, first.value.png)], first.value, actions, calls + CaptureCalls(w.answers, |calls|), requests, linesRead);
      RunFromConversation(w, s);
      RunFromRequests(w, s);
    }
  }
}
